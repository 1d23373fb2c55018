/**
 * How long one turn of the consumer's poll loop keeps the group from rebalancing: the batch runs through
 * the worker pool, every call of processRecord taking as long as it takes, and the commit follows
 * (internal/consumer/consumer.go). The exact bound on its duration, for any records.
 */
module Turns {
  import opened Prelude
  import opened Orders
  import opened Records
  import opened Store
  import opened Consumer
  import opened Sample
  import Pool = WorkerPool

  const REBALANCE_TIMEOUT: int := 5 * MINUTE
  const COMMIT_TIMEOUT: int := 10 * SECOND

  /** What one call of processRecord meets: the database, and everything else. */
  datatype Call = Call(db: Database, env: Env)

  /** A polled batch, and what its calls are going to meet. */
  datatype Job = Job(records: seq<Record>, calls: seq<Call>)

  predicate ValidJob(c: Config, job: Job) {
    && 0 < |job.records| == |job.calls| <= c.batchSize
    && forall k :: 0 <= k < |job.calls| ==> ValidEnv(c, job.calls[k].env)
  }

  function EffectOf(c: Config, job: Job, k: nat): Effect
    requires ValidConfig(c) && k < |job.records| == |job.calls|
  {
    RecordEffect(c, job.calls[k].db, job.records[k], job.calls[k].env)
  }

  // ---------- one turn, step by step ----------

  datatype Turn = Handling(timed: Pool.Timed) | Committing(since: Time, now: Time) | Over(at: Time)

  datatype Step = InPool(step: Pool.Step) | PoolReturns | CommitTicks(to: Time) | CommitReturns

  /** Some handler is running: otherwise nothing takes time. */
  predicate SomeBusy(p: Pool.Pool) {
    exists l :: 0 <= l < |p.lanes| && p.lanes[l].Busy?
  }

  /** No running call lasts longer than it takes. */
  predicate MayLast(c: Config, job: Job, p: Pool.Pool, to: Time)
    requires ValidConfig(c) && |job.records| == |job.calls|
  {
    forall l :: 0 <= l < |p.lanes| && p.lanes[l].Busy? ==>
      p.lanes[l].index < |job.calls| && to <= p.lanes[l].since + EffectOf(c, job, p.lanes[l].index).elapsed
  }

  /**
   * A call reads the clock when it begins, which shows up to `skew` more than the true time; it ends
   * when its time is up, with its own result.
   */
  predicate Allowed(c: Config, job: Job, skew: nat, t: Pool.Timed, step: Pool.Step)
    requires ValidConfig(c) && |job.records| == |job.calls|
  {
    match step
    case Hand(l) =>
      && Pool.CanHand(t.pool, l) && t.pool.next < |job.calls|
      && (t.pool.canceled || t.now <= job.calls[t.pool.next].env.now <= t.now + skew)
    case Finish(l, ok) =>
      && Pool.CanFinish(t.pool, l)
      && var lane := t.pool.lanes[l];
      && lane.index < |job.calls| && ok == EffectOf(c, job, lane.index).ok
      && t.now == lane.since + EffectOf(c, job, lane.index).elapsed
    case Exit(l) => Pool.CanExit(t.pool, l)
    case Cancel => true
    case Tick(to) =>
      && t.now <= to && SomeBusy(t.pool) && MayLast(c, job, t.pool, to)
      && (t.pool.next < |t.pool.errors| ==> forall l :: 0 <= l < |t.pool.lanes| ==> !t.pool.lanes[l].Idle?)
  }

  predicate AllNil(p: Pool.Pool) {
    forall i :: 0 <= i < |p.errors| ==> p.errors[i].NoError?
  }

  /** A step that is not enabled leaves the turn as it is. */
  function Next(c: Config, job: Job, skew: nat, turn: Turn, step: Step): Turn
    requires ValidConfig(c) && |job.records| == |job.calls|
  {
    match (turn, step)
    case (Handling(t), InPool(s)) => if Allowed(c, job, skew, t, s) then Handling(Pool.Apply(t, s)) else turn
    case (Handling(t), PoolReturns) =>
      if !Pool.Finished(t.pool) then turn
      else if AllNil(t.pool) then Committing(t.now, t.now)
      else Over(t.now)
    case (Committing(since, now), CommitTicks(to)) =>
      if now <= to <= since + COMMIT_TIMEOUT then Committing(since, to) else turn
    case (Committing(_, now), CommitReturns) => Over(now)
    case _ => turn
  }

  function Begun(c: Config, job: Job, begin: Time): Turn
    requires ValidConfig(c)
  {
    Handling(Pool.Begun(begin, c.workers, |job.records|))
  }

  function Run(c: Config, job: Job, skew: nat, begin: Time, steps: seq<Step>): Turn
    requires ValidConfig(c) && |job.records| == |job.calls|
  {
    if steps == [] then Begun(c, job, begin)
    else Next(c, job, skew, Run(c, job, skew, begin, steps[..|steps| - 1]), steps[|steps| - 1])
  }

  ghost predicate Reaches(c: Config, job: Job, skew: nat, begin: Time, turn: Turn)
    requires ValidConfig(c) && |job.records| == |job.calls|
  {
    exists steps :: turn == Run(c, job, skew, begin, steps)
  }

  function Clock(turn: Turn): Time {
    match turn
    case Handling(t) => t.now
    case Committing(_, now) => now
    case Over(at) => at
  }

  /** AllowRebalance is called within the rebalance timeout, or there is still time for it. */
  predicate InTime(begin: Time, turn: Turn) {
    Clock(turn) <= begin + REBALANCE_TIMEOUT
  }

  lemma ReachesNext(c: Config, job: Job, skew: nat, begin: Time, turn: Turn, step: Step)
    requires ValidConfig(c) && |job.records| == |job.calls| && Reaches(c, job, skew, begin, turn)
    ensures Reaches(c, job, skew, begin, Next(c, job, skew, turn, step))
  {
    var steps :| turn == Run(c, job, skew, begin, steps);
    assert (steps + [step])[..|steps|] == steps;
    assert Next(c, job, skew, turn, step) == Run(c, job, skew, begin, steps + [step]);
  }

  // ---------- no turn takes longer ----------

  /** A call that begins at `since` keeps the pace. */
  predicate OnPace(c: Config, job: Job, skew: nat, pace: Pool.Pace, k: nat, since: Time)
    requires ValidConfig(c) && k < |job.records| == |job.calls|
  {
    since <= job.calls[k].env.now <= since + skew
    ==> since + EffectOf(c, job, k).elapsed <= Pool.ReturnBy(pace, since)
  }

  ghost predicate KeepsPace(c: Config, job: Job, skew: nat, pace: Pool.Pace)
    requires ValidConfig(c) && |job.records| == |job.calls|
  {
    forall k: nat, since: Time :: k < |job.records| ==> OnPace(c, job, skew, pace, k, since)
  }

  /** When the pool has finished at the latest. */
  function PoolEnd(c: Config, job: Job, pace: Pool.Pace, begin: Time): Time
    requires ValidConfig(c)
  {
    Pool.Latest(begin, pace, Rounds(|job.records|, c.workers))
  }

  ghost predicate PoolInv(c: Config, job: Job, pace: Pool.Pace, begin: Time, t: Pool.Timed)
    requires ValidConfig(c) && |job.records| == |job.calls|
  {
    && Pool.Inv(pace, t) && t.pool.begin == begin && |t.pool.errors| == |job.records|
    && |t.pool.lanes| == Pool.LaneCount(c.workers, |job.records|)
    && t.now <= PoolEnd(c, job, pace, begin)
    && forall l :: 0 <= l < |t.pool.lanes| && t.pool.lanes[l].Busy? ==>
         && t.pool.lanes[l].index < |job.calls|
         && t.pool.lanes[l].since + EffectOf(c, job, t.pool.lanes[l].index).elapsed
            <= Pool.ReturnBy(pace, t.pool.lanes[l].since)
  }

  ghost predicate TurnInv(c: Config, job: Job, pace: Pool.Pace, begin: Time, turn: Turn)
    requires ValidConfig(c) && |job.records| == |job.calls|
  {
    match turn
    case Handling(t) => PoolInv(c, job, pace, begin, t)
    case Committing(since, now) => since <= PoolEnd(c, job, pace, begin) && now <= since + COMMIT_TIMEOUT
    case Over(at) => at <= PoolEnd(c, job, pace, begin) + COMMIT_TIMEOUT
  }

  lemma PoolStepKeeps(c: Config, job: Job, skew: nat, pace: Pool.Pace, begin: Time, t: Pool.Timed, step: Pool.Step)
    requires ValidConfig(c) && ValidJob(c, job) && KeepsPace(c, job, skew, pace)
    requires PoolInv(c, job, pace, begin, t) && Allowed(c, job, skew, t, step)
    ensures PoolInv(c, job, pace, begin, Pool.Apply(t, step))
  {
    Pool.NextKeepsInv(pace, t, step);
    match step
    case Hand(l) => assert OnPace(c, job, skew, pace, t.pool.next, t.now);
    case Tick(to) => TickKeeps(c, job, pace, begin, t, to);
    case _ =>
  }

  lemma TickIsOnPace(c: Config, job: Job, pace: Pool.Pace, begin: Time, t: Pool.Timed, to: Time)
    requires ValidConfig(c) && ValidJob(c, job)
    requires PoolInv(c, job, pace, begin, t) && Allowed(c, job, 0, t, Pool.Tick(to))
    ensures Pool.CanTick(pace, t.pool, t.now, to)
  {
  }

  lemma TickKeeps(c: Config, job: Job, pace: Pool.Pace, begin: Time, t: Pool.Timed, to: Time)
    requires ValidConfig(c) && ValidJob(c, job)
    requires PoolInv(c, job, pace, begin, t) && Allowed(c, job, 0, t, Pool.Tick(to))
    ensures Pool.CanTick(pace, t.pool, t.now, to)
    ensures to <= PoolEnd(c, job, pace, begin)
  {
    var u := Pool.Timed(to, t.pool);
    TickIsOnPace(c, job, pace, begin, t, to);
    assert u == Pool.Next(pace, t, Pool.Tick(to));
    Pool.NextKeepsInv(pace, t, Pool.Tick(to));
    var l :| 0 <= l < |t.pool.lanes| && t.pool.lanes[l].Busy?;
    Pool.UnfinishedIsInTime(pace, u, t.pool.lanes[l].index);
    Pool.LaneRounds(c.workers, |job.records|, 0);
    Pool.RoundStartIs(begin, pace, Rounds(|job.records|, c.workers));
  }

  lemma NextKeeps(c: Config, job: Job, skew: nat, pace: Pool.Pace, begin: Time, turn: Turn, step: Step)
    requires ValidConfig(c) && ValidJob(c, job) && KeepsPace(c, job, skew, pace)
    requires TurnInv(c, job, pace, begin, turn)
    ensures TurnInv(c, job, pace, begin, Next(c, job, skew, turn, step))
  {
    if turn.Handling? && step.InPool? && Allowed(c, job, skew, turn.timed, step.step) {
      PoolStepKeeps(c, job, skew, pace, begin, turn.timed, step.step);
    }
  }

  lemma BegunInv(c: Config, job: Job, pace: Pool.Pace, begin: Time)
    requires ValidConfig(c) && ValidJob(c, job)
    ensures TurnInv(c, job, pace, begin, Begun(c, job, begin))
  {
    Pool.StartInv(begin, pace, c.workers, |job.records|);
    Pool.RoundsAscend(begin, pace, 0, Rounds(|job.records|, c.workers));
    Pool.RoundStartIs(begin, pace, Rounds(|job.records|, c.workers));
  }

  /** A batch whose calls keep a pace is over by the makespan at that pace and ten seconds. */
  lemma {:induction false} TurnEndsBy(c: Config, job: Job, skew: nat, pace: Pool.Pace, begin: Time, steps: seq<Step>)
    requires ValidConfig(c) && ValidJob(c, job) && KeepsPace(c, job, skew, pace)
    ensures TurnInv(c, job, pace, begin, Run(c, job, skew, begin, steps))
    ensures Clock(Run(c, job, skew, begin, steps)) <= PoolEnd(c, job, pace, begin) + COMMIT_TIMEOUT
    decreases |steps|
  {
    if steps == [] {
      BegunInv(c, job, pace, begin);
    } else {
      TurnEndsBy(c, job, skew, pace, begin, steps[..|steps| - 1]);
      NextKeeps(c, job, skew, pace, begin, Run(c, job, skew, begin, steps[..|steps| - 1]), steps[|steps| - 1]);
    }
  }

  // ---------- some turn takes that long ----------

  function Lanes(c: Config, job: Job): nat
    requires ValidConfig(c)
  {
    Pool.LaneCount(c.workers, |job.records|)
  }

  /** When item `k` starts if every item before it takes all the time it may. */
  function StartOf(c: Config, job: Job, pace: Pool.Pace, begin: Time, k: nat): Time
    requires ValidConfig(c) && job.records != []
  {
    Pool.RoundStart(begin, pace, Pool.RoundOf(k, Lanes(c, job)))
  }

  /** Every call begins with its round, takes all the time it may, and returns nil. */
  ghost predicate Slowest(c: Config, job: Job, pace: Pool.Pace, begin: Time)
    requires ValidConfig(c) && ValidJob(c, job)
  {
    forall k: nat :: k < |job.records| ==> SlowestAt(c, job, pace, StartOf(c, job, pace, begin, k), k)
  }

  predicate SlowestAt(c: Config, job: Job, pace: Pool.Pace, start: Time, k: nat)
    requires ValidConfig(c) && k < |job.records| == |job.calls|
  {
    && job.calls[k].env.now == start && EffectOf(c, job, k).ok
    && start + EffectOf(c, job, k).elapsed == Pool.ReturnBy(pace, start)
  }

  /**
   * Within the round that began at `start` with item `k`: `taken` items have been handed out, and the
   * first `settled` of them have returned.
   */
  predicate Mid(c: Config, job: Job, t: Pool.Timed, k: nat, start: Time, taken: nat, settled: nat)
    requires ValidConfig(c)
  {
    var p, n := t.pool, |job.records|;
    && |p.errors| == |p.fates| == |p.writes| == |p.calls| == n && AllNil(p) && !p.canceled
    && |p.lanes| == Lanes(c, job) && settled <= taken <= |p.lanes| && p.next == k + taken <= n
    && (forall i :: 0 <= i < settled ==> p.lanes[i].Idle?)
    && (forall i :: settled <= i < taken ==> p.lanes[i] == Pool.Busy(k + i, start))
    && (forall i :: taken <= i < |p.lanes| ==> p.lanes[i].Idle?)
  }

  /** The state of a run in the middle of a round. */
  ghost predicate At(c: Config, job: Job, skew: nat, begin: Time, t: Pool.Timed, k: nat, start: Time, taken: nat,
        settled: nat)
    requires ValidConfig(c) && |job.records| == |job.calls|
  {
    Mid(c, job, t, k, start, taken, settled) && Reaches(c, job, skew, begin, Handling(t))
  }

  /** The calls of one round all begin at its start. */
  ghost predicate RoundSlowest(c: Config, job: Job, pace: Pool.Pace, k: nat, start: Time, taken: nat)
    requires ValidConfig(c) && |job.records| == |job.calls| && k + taken <= |job.records|
  {
    forall i: nat :: k <= i < k + taken ==> SlowestAt(c, job, pace, start, i)
  }

  lemma ItemOfRound(c: Config, job: Job, pace: Pool.Pace, begin: Time, k: nat, i: nat)
    requires ValidConfig(c) && ValidJob(c, job) && Slowest(c, job, pace, begin)
    requires Pool.PlaceOf(k, Lanes(c, job)) == 0 && k <= i < k + Lanes(c, job) && i < |job.records|
    ensures SlowestAt(c, job, pace, StartOf(c, job, pace, begin, k), i)
  {
    Pool.SameRound(k, Lanes(c, job), i - k);
    assert SlowestAt(c, job, pace, StartOf(c, job, pace, begin, i), i);
  }

  lemma OfOneRound(c: Config, job: Job, pace: Pool.Pace, begin: Time, k: nat, taken: nat)
    requires ValidConfig(c) && ValidJob(c, job) && Slowest(c, job, pace, begin)
    requires Pool.PlaceOf(k, Lanes(c, job)) == 0 && taken <= Lanes(c, job) && k + taken <= |job.records|
    ensures RoundSlowest(c, job, pace, k, StartOf(c, job, pace, begin, k), taken)
  {
    forall i: nat | k <= i < k + taken ensures SlowestAt(c, job, pace, StartOf(c, job, pace, begin, k), i) {
      ItemOfRound(c, job, pace, begin, k, i);
    }
  }

  lemma {:induction false} TakeAll(c: Config, job: Job, skew: nat, pace: Pool.Pace, begin: Time, t: Pool.Timed, k: nat,
        taken: nat, goal: nat)
    returns (u: Pool.Timed)
    requires ValidConfig(c) && ValidJob(c, job) && At(c, job, skew, begin, t, k, t.now, taken, 0)
    requires taken <= goal <= Lanes(c, job) && k + goal <= |job.records|
    requires RoundSlowest(c, job, pace, k, t.now, goal)
    ensures u.now == t.now && At(c, job, skew, begin, u, k, t.now, goal, 0)
    decreases goal - taken
  {
    if taken == goal {
      u := t;
    } else {
      var step := Pool.Hand(taken);
      assert SlowestAt(c, job, pace, t.now, k + taken);
      assert Allowed(c, job, skew, t, step);
      ReachesNext(c, job, skew, begin, Handling(t), InPool(step));
      u := TakeAll(c, job, skew, pace, begin, Pool.Apply(t, step), k, taken + 1, goal);
    }
  }

  lemma MaySettle(c: Config, job: Job, skew: nat, pace: Pool.Pace, t: Pool.Timed, k: nat, start: Time, taken: nat,
        settled: nat)
    requires ValidConfig(c) && ValidJob(c, job) && Mid(c, job, t, k, start, taken, settled) && settled < taken
    requires RoundSlowest(c, job, pace, k, start, taken) && t.now == Pool.ReturnBy(pace, start)
    ensures Allowed(c, job, skew, t, Pool.Finish(settled, true))
  {
    assert t.pool.lanes[settled] == Pool.Busy(k + settled, start);
    assert SlowestAt(c, job, pace, start, k + settled);
  }

  lemma OneMoreSettled(c: Config, job: Job, t: Pool.Timed, k: nat, start: Time, taken: nat, settled: nat)
    requires ValidConfig(c) && Mid(c, job, t, k, start, taken, settled) && settled < taken
    ensures Mid(c, job, Pool.Apply(t, Pool.Finish(settled, true)), k, start, taken, settled + 1)
  {
    assert t.pool.lanes[settled] == Pool.Busy(k + settled, start);
  }

  lemma {:induction false} SettleAll(c: Config, job: Job, skew: nat, pace: Pool.Pace, begin: Time, t: Pool.Timed,
        k: nat, start: Time, taken: nat, settled: nat)
    returns (u: Pool.Timed)
    requires ValidConfig(c) && ValidJob(c, job) && At(c, job, skew, begin, t, k, start, taken, settled)
    requires RoundSlowest(c, job, pace, k, start, taken) && t.now == Pool.ReturnBy(pace, start)
    ensures u.now == t.now && At(c, job, skew, begin, u, k, start, taken, taken)
    decreases taken - settled
  {
    if settled == taken {
      u := t;
    } else {
      var step := Pool.Finish(settled, true);
      MaySettle(c, job, skew, pace, t, k, start, taken, settled);
      OneMoreSettled(c, job, t, k, start, taken, settled);
      ReachesNext(c, job, skew, begin, Handling(t), InPool(step));
      u := SettleAll(c, job, skew, pace, begin, Pool.Apply(t, step), k, start, taken, settled + 1);
    }
  }

  /** Time may pass while every worker is busy, or no item waits. */
  lemma RoundMayPass(c: Config, job: Job, skew: nat, pace: Pool.Pace, t: Pool.Timed, k: nat, taken: nat)
    requires ValidConfig(c) && ValidJob(c, job) && Mid(c, job, t, k, t.now, taken, 0)
    requires taken > 0 && (taken == Lanes(c, job) || k + taken == |job.records|)
    requires RoundSlowest(c, job, pace, k, t.now, taken)
    ensures Allowed(c, job, skew, t, Pool.Tick(Pool.ReturnBy(pace, t.now)))
  {
    var to, p := Pool.ReturnBy(pace, t.now), t.pool;
    assert p.lanes[0].Busy?;
    forall l | 0 <= l < |p.lanes| && p.lanes[l].Busy?
      ensures p.lanes[l].index < |job.calls| && to <= p.lanes[l].since + EffectOf(c, job, p.lanes[l].index).elapsed
    {
      assert p.lanes[l] == Pool.Busy(k + l, t.now) && SlowestAt(c, job, pace, t.now, k + l);
    }
  }

  lemma RoundPasses(c: Config, job: Job, skew: nat, pace: Pool.Pace, begin: Time, t: Pool.Timed, k: nat, taken: nat)
    returns (u: Pool.Timed)
    requires ValidConfig(c) && ValidJob(c, job) && At(c, job, skew, begin, t, k, t.now, taken, 0)
    requires taken > 0 && (taken == Lanes(c, job) || k + taken == |job.records|)
    requires RoundSlowest(c, job, pace, k, t.now, taken)
    ensures u.now == Pool.ReturnBy(pace, t.now) && At(c, job, skew, begin, u, k, t.now, taken, 0)
  {
    var step := Pool.Tick(Pool.ReturnBy(pace, t.now));
    RoundMayPass(c, job, skew, pace, t, k, taken);
    ReachesNext(c, job, skew, begin, Handling(t), InPool(step));
    u := Pool.Apply(t, step);
  }

  /** One round at the slowest, full or not. */
  lemma OneRound(c: Config, job: Job, skew: nat, pace: Pool.Pace, begin: Time, t: Pool.Timed, k: nat)
    returns (u: Pool.Timed)
    requires ValidConfig(c) && ValidJob(c, job) && Slowest(c, job, pace, begin)
    requires k < |job.records| && Pool.PlaceOf(k, Lanes(c, job)) == 0 && t.now == StartOf(c, job, pace, begin, k)
    requires At(c, job, skew, begin, t, k, t.now, 0, 0)
    ensures u.now == Pool.ReturnBy(pace, t.now)
    ensures At(c, job, skew, begin, u, Min(k + Lanes(c, job), |job.records|), u.now, 0, 0)
  {
    var taken := Min(Lanes(c, job), |job.records| - k);
    OfOneRound(c, job, pace, begin, k, taken);
    u := TakeAll(c, job, skew, pace, begin, t, k, 0, taken);
    u := RoundPasses(c, job, skew, pace, begin, u, k, taken);
    u := SettleAll(c, job, skew, pace, begin, u, k, t.now, taken, 0);
  }

  /** Where the round after the one that begins with item `k` begins, or the batch ends. */
  lemma NextRound(c: Config, job: Job, pace: Pool.Pace, begin: Time, k: nat)
    requires ValidConfig(c) && k < |job.records| && Pool.PlaceOf(k, Lanes(c, job)) == 0
    ensures var n, m, end := |job.records|, Lanes(c, job), Pool.ReturnBy(pace, StartOf(c, job, pace, begin, k));
            if k + m < n then Pool.PlaceOf(k + m, m) == 0 && StartOf(c, job, pace, begin, k + m) == end
            else Pool.RoundStart(begin, pace, Pool.RoundOf(n - 1, m) + 1) == end
  {
    var n, m := |job.records|, Lanes(c, job);
    if k + m < n {
      assert Pool.RoundOf(k + m, m) == Pool.RoundOf(k, m) + 1;
    } else {
      Pool.SameRound(k, m, n - 1 - k);
    }
  }

  /** From the beginning of a round on, up to the end of the batch. */
  lemma {:induction false} AllRounds(c: Config, job: Job, skew: nat, pace: Pool.Pace, begin: Time, t: Pool.Timed,
        k: nat)
    returns (u: Pool.Timed)
    requires ValidConfig(c) && ValidJob(c, job) && Slowest(c, job, pace, begin)
    requires k < |job.records| && Pool.PlaceOf(k, Lanes(c, job)) == 0 && t.now == StartOf(c, job, pace, begin, k)
    requires At(c, job, skew, begin, t, k, t.now, 0, 0)
    ensures u.now == Pool.RoundStart(begin, pace, Pool.RoundOf(|job.records| - 1, Lanes(c, job)) + 1)
    ensures At(c, job, skew, begin, u, |job.records|, u.now, 0, 0)
    decreases |job.records| - k
  {
    var n, m := |job.records|, Lanes(c, job);
    u := OneRound(c, job, skew, pace, begin, t, k);
    NextRound(c, job, pace, begin, k);
    if k + m < n {
      u := AllRounds(c, job, skew, pace, begin, u, k + m);
    }
  }

  /** The first `left` workers are gone. */
  predicate Leaving(t: Pool.Timed, left: nat) {
    && left <= |t.pool.lanes| && t.pool.next >= |t.pool.errors| && AllNil(t.pool)
    && forall i :: 0 <= i < |t.pool.lanes| ==> if i < left then t.pool.lanes[i].Exited? else t.pool.lanes[i].Idle?
  }

  lemma {:induction false} ExitAll(c: Config, job: Job, skew: nat, begin: Time, t: Pool.Timed, left: nat)
    returns (u: Pool.Timed)
    requires ValidConfig(c) && |job.records| == |job.calls| && Leaving(t, left)
    requires Reaches(c, job, skew, begin, Handling(t))
    ensures u.now == t.now && Leaving(u, |u.pool.lanes|) && Reaches(c, job, skew, begin, Handling(u))
    decreases |t.pool.lanes| - left
  {
    if left == |t.pool.lanes| {
      u := t;
    } else {
      ReachesNext(c, job, skew, begin, Handling(t), InPool(Pool.Exit(left)));
      u := ExitAll(c, job, skew, begin, Pool.Apply(t, Pool.Exit(left)), left + 1);
    }
  }

  lemma LastRoundIs(c: Config, job: Job, pace: Pool.Pace, begin: Time)
    requires ValidConfig(c) && job.records != []
    ensures Pool.RoundStart(begin, pace, Pool.RoundOf(|job.records| - 1, Lanes(c, job)) + 1)
            == PoolEnd(c, job, pace, begin)
  {
    Pool.LaneRounds(c.workers, |job.records|, 0);
    Pool.RoundsAre(|job.records|, Lanes(c, job));
    Pool.RoundStartIs(begin, pace, Rounds(|job.records|, c.workers));
  }

  /** The slowest calls, and then the slowest commit. */
  lemma SlowestTurn(c: Config, job: Job, skew: nat, pace: Pool.Pace, begin: Time) returns (turn: Turn)
    requires ValidConfig(c) && ValidJob(c, job) && Slowest(c, job, pace, begin)
    ensures Reaches(c, job, skew, begin, turn)
    ensures Clock(turn) == PoolEnd(c, job, pace, begin) + COMMIT_TIMEOUT
  {
    var t := Pool.Begun(begin, c.workers, |job.records|);
    assert Handling(t) == Run(c, job, skew, begin, []);
    t := AllRounds(c, job, skew, pace, begin, t, 0);
    LastRoundIs(c, job, pace, begin);
    t := ExitAll(c, job, skew, begin, t, 0);
    ReachesNext(c, job, skew, begin, Handling(t), PoolReturns);
    ReachesNext(c, job, skew, begin, Committing(t.now, t.now), CommitTicks(t.now + COMMIT_TIMEOUT));
    turn := Committing(t.now, t.now + COMMIT_TIMEOUT);
  }

  // ---------- the exact bound ----------

  /** Every turn of the loop, whatever its batch and whatever its calls meet, is in time. */
  ghost predicate TurnsFit(c: Config, skew: nat)
    requires ValidConfig(c)
  {
    forall job, begin: Time, turn :: ValidJob(c, job) && Reaches(c, job, skew, begin, turn) ==> InTime(begin, turn)
  }

  /** What a full batch needs in the worst case. */
  function Needed(c: Config): int
    requires ValidConfig(c)
  {
    Rounds(c.batchSize, c.workers) * RecordLimit(c) + COMMIT_TIMEOUT
  }

  lemma CallsKeepLimit(c: Config, job: Job, skew: nat, begin: Time)
    requires ValidConfig(c) && ValidJob(c, job)
    ensures KeepsPace(c, job, skew, Pool.Pace(begin, RecordLimit(c)))
  {
    forall k: nat, since: Time | k < |job.records|
      ensures OnPace(c, job, skew, Pool.Pace(begin, RecordLimit(c)), k, since)
    {
      EndsWithinLimit(c, job.calls[k].db, job.records[k], job.calls[k].env);
    }
  }

  lemma BoundMonotone(n: nat, m: nat, w: nat, begin: Time, pace: Pool.Pace)
    requires w > 0 && n <= m
    ensures Pool.Latest(begin, pace, Rounds(n, w)) <= Pool.Latest(begin, pace, Rounds(m, w))
  {
    Pool.RoundsMonotone(n, m, w);
    Pool.RoundsAscend(begin, pace, Rounds(n, w), Rounds(m, w));
    Pool.RoundStartIs(begin, pace, Rounds(n, w));
    Pool.RoundStartIs(begin, pace, Rounds(m, w));
  }

  lemma TurnEndsInTime(c: Config, job: Job, skew: nat, begin: Time, turn: Turn)
    requires ValidConfig(c) && ValidJob(c, job) && Reaches(c, job, skew, begin, turn)
    ensures Clock(turn) <= begin + Needed(c)
  {
    var pace := Pool.Pace(begin, RecordLimit(c));
    var steps :| turn == Run(c, job, skew, begin, steps);
    CallsKeepLimit(c, job, skew, begin);
    TurnEndsBy(c, job, skew, pace, begin, steps);
    BoundMonotone(|job.records|, c.batchSize, c.workers, begin, pace);
    Pool.AtLeastOneRound(c.batchSize, c.workers);
  }

  /** Every call times out, and the completion is refused. */
  function SlowEnv(c: Config, now: Time): Env
    requires ValidConfig(c)
  {
    Env(now, false, false, Consumer.DATABASE_TIMEOUT, Verdict(Failed, ""), c.timeout, 0, now, Refused,
        Consumer.DATABASE_TIMEOUT, "", now, true, true, ROUTE_TIMEOUT)
  }

  /** When the k-th record of the worst batch is handed out. */
  function SlowStart(c: Config, k: nat): Time
    requires ValidConfig(c)
  {
    Pool.RoundStart(1, Pool.Pace(1, RecordLimit(c)), Pool.RoundOf(k, Pool.LaneCount(c.workers, c.batchSize)))
  }

  /** Due as late as the delay check, made at `now`, lets it be; if that is in the past, it is due. */
  function SlowRecord(c: Config, now: Time): Record {
    Routed(EventRecord(), c.retryTopic, c.maxRetries, "", now + Tolerance(c))
  }

  /** The worst batch. */
  function SlowJob(c: Config): Job
    requires ValidConfig(c)
  {
    Job(seq(c.batchSize, k requires 0 <= k < c.batchSize => SlowRecord(c, SlowStart(c, k))),
        seq(c.batchSize, k requires 0 <= k < c.batchSize => Call(EMPTY, SlowEnv(c, SlowStart(c, k)))))
  }

  /** A wanted event whose calls all time out is handled for as long as it can be. */
  lemma SlowCall(c: Config, db: Database, record: Record, attempt: nat, due: Time, now: Time)
    requires ValidConfig(c) && Decode(record) == Genuine(EnvelopeWith(1, 2)) && db.processed == {} && ZERO_TIME < now
    requires Screen(c, record, now) == WaitFor(attempt, due)
    ensures ValidEnv(c, SlowEnv(c, now))
    ensures var e := RecordEffect(c, db, record, SlowEnv(c, now));
            e.ok && e.elapsed == Max(0, due - now) + c.timeout + 20 * SECOND
  {
    EventIsGenuine();
  }

  lemma SlowRecordTakes(c: Config, now: Time)
    requires ValidConfig(c) && ZERO_TIME < now
    ensures ValidEnv(c, SlowEnv(c, now))
    ensures var e := RecordEffect(c, EMPTY, SlowRecord(c, now), SlowEnv(c, now));
            e.ok && e.elapsed == RecordLimit(c)
  {
    RoutedReadsBack(EventRecord(), c.retryTopic, c.maxRetries, "", now + Tolerance(c));
    EventIsGenuine();
    SlowCall(c, EMPTY, SlowRecord(c, now), c.maxRetries, now + Tolerance(c), now);
  }

  lemma SlowJobIsSlowest(c: Config)
    requires ValidConfig(c)
    ensures ValidJob(c, SlowJob(c)) && Slowest(c, SlowJob(c), Pool.Pace(1, RecordLimit(c)), 1)
  {
    var job, pace := SlowJob(c), Pool.Pace(1, RecordLimit(c));
    forall k: nat | k < |job.records|
      ensures ValidEnv(c, job.calls[k].env) && SlowestAt(c, job, pace, SlowStart(c, k), k)
    {
      Pool.RoundsAscend(1, pace, 0, Pool.RoundOf(k, Pool.LaneCount(c.workers, c.batchSize)));
      SlowRecordTakes(c, SlowStart(c, k));
    }
    forall k: nat | k < |job.records| ensures SlowestAt(c, job, pace, StartOf(c, job, pace, 1, k), k) {
      assert SlowestAt(c, job, pace, SlowStart(c, k), k);
    }
  }

  /**
   * The exact bound: every turn of every batch is in time precisely when the rounds of a full batch, at
   * `RecordLimit` each, leave ten seconds for the commit.
   */
  lemma TurnFitsIff(c: Config, skew: nat)
    requires ValidConfig(c)
    ensures TurnsFit(c, skew) <==> Needed(c) <= REBALANCE_TIMEOUT
    ensures c.maxBackoff + 5_000_000_000 <= 0x7fff_ffff_ffff_ffff ==>
              (TurnsFit(c, skew)
               <==> Rounds(c.batchSize, c.workers) * (c.maxBackoff + c.timeout + 25_000_000_000) + 10_000_000_000
                    <= 300_000_000_000)
  {
    RecordLimitIs(c);
    if Needed(c) <= REBALANCE_TIMEOUT {
      forall job, begin: Time, turn | ValidJob(c, job) && Reaches(c, job, skew, begin, turn)
        ensures InTime(begin, turn)
      {
        TurnEndsInTime(c, job, skew, begin, turn);
      }
    } else {
      SlowJobIsSlowest(c);
      var turn := SlowestTurn(c, SlowJob(c), skew, Pool.Pace(1, RecordLimit(c)), 1);
      Pool.AtLeastOneRound(c.batchSize, c.workers);
      assert !InTime(1, turn);
    }
  }
}
