/**
 * The duration of a turn for the records that the pipeline itself writes, rather than for arbitrary ones.
 * Their delays end at absolute instants, so that the waits of one batch overlap: it is the last attempt's
 * backoff that counts, and only once.
 */
module OwnTurns {
  import opened Prelude
  import opened Records
  import opened Store
  import opened Sample
  import opened Pipeline
  import opened PipelineInvariant
  import opened PipelineSteps
  import opened PipelineSafety
  import opened RetryRuns
  import Backoff
  import Consumer
  import Turns
  import WorkerGuard
  import Pool = WorkerPool

  /** A turn on a batch that has just been polled, whatever its calls meet. */
  ghost predicate OwnTurn(c: Config, s: System, job: Turns.Job, turn: Turns.Turn)
    requires ValidConfig(c)
  {
    && Reachable(c, s) && Turns.ValidJob(c.consumer, job) && JustPolled(s, job.records)
    && Turns.Reaches(c.consumer, job, c.skew, s.clock, turn)
  }

  /** In any run of the pipeline, every turn on a batch that it polls is in time. */
  ghost predicate OwnTurnsFit(c: Config)
    requires ValidConfig(c)
  {
    forall s, job, turn :: OwnTurn(c, s, job, turn) ==> Turns.InTime(s.clock, turn)
  }

  /** A call after its wait. */
  function AfterWait(c: Config): int {
    c.consumer.timeout + 20 * SECOND
  }

  function OwnNeeded(c: Config): int
    requires ValidConfig(c)
  {
    LongestWait(c) + Rounds(c.consumer.batchSize, c.consumer.workers) * AfterWait(c) + Turns.COMMIT_TIMEOUT
  }

  function OwnPace(c: Config, begin: Time): Pool.Pace
    requires ValidConfig(c)
  {
    Pool.Pace(begin + LongestWait(c), AfterWait(c))
  }

  // ---------- no turn takes longer ----------

  /** A record that is due by `ready` keeps the pace whenever its call begins. */
  lemma DueRecordKeepsPace(c: Consumer.Config, db: Database, record: Record, env: Consumer.Env, ready: Time,
        since: Time)
    requires Consumer.ValidConfig(c) && Consumer.ValidEnv(c, env) && since <= env.now
    requires HeaderTime(record, NOT_BEFORE).Success? && HeaderTime(record, NOT_BEFORE).value <= ready
    ensures since + Consumer.RecordEffect(c, db, record, env).elapsed <= Max(since, ready) + c.timeout + 20 * SECOND
  {
    match Consumer.Screen(c, record, env.now)
    case ToDlq(_, _) =>
    case WaitFor(attempt, due) =>
      match Consumer.WaitUntil(due, env)
      case None =>
      case Some(waited) => Consumer.HandlingTakes(c, db, record, attempt, env, waited);
  }

  /** Every consumed record is due by the last attempt's backoff. */
  lemma OwnRecordIsDue(c: Config, s: System, ref: Ref)
    requires ValidConfig(c) && Reachable(c, s) && Consumed(c, ref.partition.topic)
    requires ref.offset < |LogOf(s.logs, ref.partition)|
    ensures var r := RecordAt(s, ref);
            HeaderTime(r, NOT_BEFORE).Success? && HeaderTime(r, NOT_BEFORE).value <= s.clock + LongestWait(c)
  {
    if ref.partition.topic == c.consumer.retryTopic {
      RetriesFormChains(c, s, ref.partition, ref.offset);
      Backoff.DelayIsMonotone(HeaderInt(RecordAt(s, ref), ATTEMPT).value, c.consumer.maxRetries,
                              c.consumer.baseBackoff, c.consumer.maxBackoff);
    } else {
      ReachableInv(c, s);
      assert GoodAt(c, RealView(c), s.db, s.logs, s.clock, ref.partition, ref.offset);
    }
  }

  lemma PolledIsConsumed(c: Config, s: System, w: string, ref: Ref)
    requires ValidConfig(c) && Reachable(c, s) && HasSlot(s, w, ref)
    ensures Consumed(c, ref.partition.topic)
  {
    ReachableInv(c, s);
    assert WorkerGood(c, RealView(c), s.db, s.logs, s.clock, s.committed, s.workers[w]);
  }

  lemma OwnCallsKeepPace(c: Config, s: System, job: Turns.Job)
    requires ValidConfig(c) && Reachable(c, s) && Turns.ValidJob(c.consumer, job) && JustPolled(s, job.records)
    ensures Turns.KeepsPace(c.consumer, job, c.skew, OwnPace(c, s.clock))
  {
    var w, refs :| PolledAs(s, w, refs, job.records);
    forall k: nat, since: Time | k < |job.records|
      ensures Turns.OnPace(c.consumer, job, c.skew, OwnPace(c, s.clock), k, since)
    {
      PolledIsConsumed(c, s, w, refs[k]);
      OwnRecordIsDue(c, s, refs[k]);
      if since <= job.calls[k].env.now {
        DueRecordKeepsPace(c.consumer, job.calls[k].db, job.records[k], job.calls[k].env, s.clock + LongestWait(c),
                           since);
      }
    }
  }

  lemma OwnTurnEndsInTime(c: Config, s: System, job: Turns.Job, turn: Turns.Turn)
    requires ValidConfig(c) && OwnTurn(c, s, job, turn)
    ensures Turns.Clock(turn) <= s.clock + OwnNeeded(c)
  {
    var pace := OwnPace(c, s.clock);
    var steps :| turn == Turns.Run(c.consumer, job, c.skew, s.clock, steps);
    OwnCallsKeepPace(c, s, job);
    Turns.TurnEndsBy(c.consumer, job, c.skew, pace, s.clock, steps);
    Turns.BoundMonotone(|job.records|, c.consumer.batchSize, c.consumer.workers, s.clock, pace);
    Pool.AtLeastOneRound(c.consumer.batchSize, c.consumer.workers);
  }

  // ---------- some turn takes that long ----------

  /** A full batch of copies of the last retry, all of them just made, at the slowest. */
  function OwnStart(c: Config, begin: Time, k: nat): Time
    requires ValidConfig(c)
  {
    Pool.RoundStart(begin, OwnPace(c, begin), Pool.RoundOf(k, Pool.LaneCount(c.consumer.workers, c.consumer.batchSize)))
  }

  function OwnJob(c: Config, s: System, copy: Record): Turns.Job
    requires ValidConfig(c)
  {
    var n := c.consumer.batchSize;
    Turns.Job(seq(n, _ => copy),
              seq(n, k requires 0 <= k < n => Turns.Call(s.db, Turns.SlowEnv(c.consumer, OwnStart(c, s.clock, k)))))
  }

  /** A copy of the last retry is handled as slowly as an own record can be. */
  lemma OwnCallIsSlowest(c: Config, s: System, copy: Record, k: nat)
    requires ValidConfig(c) && SkewTolerated(c) && s.clock > ZERO_TIME && s.db.processed == {}
    requires k < c.consumer.batchSize && HeaderInt(copy, ATTEMPT) == Success(c.consumer.maxRetries)
    requires HeaderTime(copy, NOT_BEFORE) == Success(s.clock + LongestWait(c))
    requires Consumer.Decode(copy) == Consumer.Genuine(EnvelopeWith(1, 2))
    ensures var job := OwnJob(c, s, copy);
            && Consumer.ValidEnv(c.consumer, job.calls[k].env)
            && Turns.SlowestAt(c.consumer, job, OwnPace(c, s.clock), OwnStart(c, s.clock, k), k)
  {
    var job, start, due := OwnJob(c, s, copy), OwnStart(c, s.clock, k), s.clock + LongestWait(c);
    Pool.RoundsAscend(s.clock, OwnPace(c, s.clock), 0,
                      Pool.RoundOf(k, Pool.LaneCount(c.consumer.workers, c.consumer.batchSize)));
    assert job.calls[k] == Turns.Call(s.db, Turns.SlowEnv(c.consumer, start)) && job.records[k] == copy;
    Turns.SlowCall(c.consumer, s.db, copy, c.consumer.maxRetries, due, start);
  }

  lemma OwnJobIsSlowest(c: Config, s: System, copy: Record)
    requires ValidConfig(c) && SkewTolerated(c) && s.clock > ZERO_TIME && s.db.processed == {}
    requires HeaderInt(copy, ATTEMPT) == Success(c.consumer.maxRetries)
    requires HeaderTime(copy, NOT_BEFORE) == Success(s.clock + LongestWait(c))
    requires Consumer.Decode(copy) == Consumer.Genuine(EnvelopeWith(1, 2))
    ensures Turns.ValidJob(c.consumer, OwnJob(c, s, copy))
    ensures Turns.Slowest(c.consumer, OwnJob(c, s, copy), OwnPace(c, s.clock), s.clock)
  {
    var job, pace := OwnJob(c, s, copy), OwnPace(c, s.clock);
    forall k: nat | k < |job.records|
      ensures Consumer.ValidEnv(c.consumer, job.calls[k].env)
      ensures Turns.SlowestAt(c.consumer, job, pace, OwnStart(c, s.clock, k), k)
    {
      OwnCallIsSlowest(c, s, copy, k);
    }
    forall k: nat | k < |job.records|
      ensures Turns.SlowestAt(c.consumer, job, pace, Turns.StartOf(c.consumer, job, pace, s.clock, k), k)
    {
      assert Turns.SlowestAt(c.consumer, job, pace, OwnStart(c, s.clock, k), k);
    }
  }

  /** The turn on it can take all of the time. */
  lemma OwnTurnTakes(c: Config) returns (s: System, job: Turns.Job, turn: Turns.Turn)
    requires ValidConfig(c) && SkewTolerated(c)
    ensures OwnTurn(c, s, job, turn) && Turns.Clock(turn) == s.clock + OwnNeeded(c)
  {
    var copy;
    s, copy := LateBatch(c);
    job := OwnJob(c, s, copy);
    OwnJobIsSlowest(c, s, copy);
    turn := Turns.SlowestTurn(c.consumer, job, c.skew, OwnPace(c, s.clock), s.clock);
    Pool.AtLeastOneRound(c.consumer.batchSize, c.consumer.workers);
  }

  /**
   * Where the delay check tolerates the skew, every turn on the pipeline's own records is in time, in
   * any run, precisely when the last attempt's backoff and the skew, and the rounds of a full batch at
   * `Timeout + 20s` each, leave ten seconds for the commit.
   */
  lemma OwnTurnFitsIff(c: Config)
    requires ValidConfig(c) && SkewTolerated(c)
    ensures OwnTurnsFit(c) <==> OwnNeeded(c) <= Turns.REBALANCE_TIMEOUT
    ensures OwnNeeded(c) == c.skew + Backoff.Delay(c.consumer.maxRetries, c.consumer.baseBackoff, c.consumer.maxBackoff)
                            + Rounds(c.consumer.batchSize, c.consumer.workers) * (c.consumer.timeout + 20_000_000_000)
                            + 10_000_000_000
  {
    if OwnNeeded(c) <= Turns.REBALANCE_TIMEOUT {
      forall s, job, turn | OwnTurn(c, s, job, turn) ensures Turns.InTime(s.clock, turn) {
        OwnTurnEndsInTime(c, s, job, turn);
      }
    } else {
      var s, job, turn := OwnTurnTakes(c);
    }
  }

  lemma FourDoublings()
    ensures Backoff.Delay(5, SECOND, 4 * MINUTE) == 16 * SECOND
  {
    assert Pow2(4) == 16;
  }

  lemma WaitOfFive(c: Config)
    requires ValidConfig(c) && c.consumer.maxRetries == 5 && c.consumer.baseBackoff == SECOND
    requires c.consumer.maxBackoff == 4 * MINUTE
    ensures LongestWait(c) == c.skew + 16 * SECOND && (c.skew <= Consumer.SKEW ==> SkewTolerated(c))
  {
    FourDoublings();
  }

  /**
   * So the durations with which arbitrary records can outlast the timeout although the guard accepts them
   * (four minutes of backoff, half a minute of work) are harmless for own records that are retried five
   * times from one second on.
   */
  lemma OwnTurnsStillFit(c: Config)
    requires ValidConfig(c) && c.skew <= Consumer.SKEW
    requires c.consumer.workers == 1 && c.consumer.batchSize == 1
    requires c.consumer.maxBackoff == 4 * MINUTE && c.consumer.timeout == 30 * SECOND
    requires c.consumer.maxRetries == 5 && c.consumer.baseBackoff == SECOND
    ensures WorkerGuard.GuardAccepts(c.consumer) && !Turns.TurnsFit(c.consumer, c.skew) && OwnTurnsFit(c)
  {
    WorkerGuard.GuardUndercounts(c.consumer, c.skew);
    WaitOfFive(c);
    assert OwnNeeded(c) <= Turns.REBALANCE_TIMEOUT by {
      assert Rounds(c.consumer.batchSize, c.consumer.workers) == 1;
    }
    OwnTurnFitsIff(c);
  }
}
