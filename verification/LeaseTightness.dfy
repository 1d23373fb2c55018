/**
 * When publishes of one row never overlap, exactly. With any shorter lease than the minimum some run of
 * two publishers publishes one row twice at the same time: it lets every call take as long as it may, ten
 * seconds for the claim and the count, fifteen for every item of every round, ten for the publish of the
 * last round. And with any lease some run does so in which an unanswered Release takes effect after its
 * owner has claimed the row again.
 */
module LeaseTightness {
  import opened Prelude
  import opened Outbox
  import opened Leases
  import Pool = WorkerPool

  ghost predicate Reachable(c: Config, s: System) {
    exists begin: Time, steps :: s == Run(c, Initial(begin), steps)
  }

  lemma ReachableNext(c: Config, s: System, step: Step)
    requires Reachable(c, s)
    ensures Reachable(c, Next(c, s, step))
  {
    var begin: Time, steps :| s == Run(c, Initial(begin), steps);
    assert (steps + [step])[..|steps|] == steps;
    assert Next(c, s, step) == Run(c, Initial(begin), steps + [step]);
  }

  /** No row is being published twice at this moment. */
  ghost predicate NoOverlap(s: System) {
    forall o1, i1: nat, o2, i2: nat ::
      IsPublishing(s, o1, i1) && IsPublishing(s, o2, i2) && s.owners[o1].ids[i1] == s.owners[o2].ids[i2]
      ==> o1 == o2 && i1 == i2
  }

  // ---------- the first owner claims a full batch at time 0 ----------

  function RowWith(id: Uuid): Row {
    Row(id, 1, "", Events.Text(""), RowPending, 0, None, 0, 0, None, None)
  }

  function Rows(n: nat): Table {
    map id: Uuid | 0 <= id < n :: RowWith(id)
  }

  function Ids(n: nat): seq<Uuid> {
    seq(n, i => i)
  }

  lemma {:induction false} RowsInserted(c: Config, n: nat)
    ensures Reachable(c, System(0, Rows(n), map[], {}))
  {
    if n == 0 {
      assert Rows(0) == map[];
      assert System(0, Rows(0), map[], {}) == Run(c, Initial(0), []);
    } else {
      RowsInserted(c, n - 1);
      ReachableNext(c, System(0, Rows(n - 1), map[], {}), InsertRow(RowWith(n - 1)));
      assert Rows(n - 1)[n - 1 := RowWith(n - 1)] == Rows(n);
    }
  }

  function ClaimedRows(c: Config): Table {
    ClaimRows(Rows(c.batchSize), Ids(c.batchSize), "A", 0, c.lease)
  }

  /** The system while only the first owner works on its batch, whose statements go unanswered. */
  function Alone(c: Config, now: Time, a: Activity, late: set<Late>): System {
    System(now, ClaimedRows(c), map["A" := a], late)
  }

  ghost predicate ReachesAlone(c: Config, now: Time, a: Activity) {
    exists late :: Reachable(c, Alone(c, now, a, late))
  }

  function Lanes(c: Config): nat
    requires c.workers > 0
  {
    Pool.LaneCount(c.workers, c.batchSize)
  }

  function Started(c: Config, now: Time): Activity
    requires c.workers > 0
  {
    Working(0, Ids(c.batchSize), Pool.Start(now, c.workers, c.batchSize), seq(c.batchSize, _ => Waiting))
  }

  lemma BatchClaimed(c: Config)
    requires c.batchSize > 0
    ensures ReachesAlone(c, 0, Claiming(0, Ids(c.batchSize)))
  {
    var n, ids := c.batchSize, Ids(c.batchSize);
    RowsInserted(c, n);
    assert forall id :: id in Rows(n) ==> ids[id] == id;
    assert ValidChoice(Rows(n), ids, {}, n, 0);
    var step := Step.Claim("A", ids, {}, true);
    ReachableNext(c, System(0, Rows(n), map[], {}), step);
    assert Next(c, System(0, Rows(n), map[], {}), step) == Alone(c, 0, Claiming(0, ids), {});
  }

  lemma BatchStarted(c: Config)
    requires c.workers > 0 && c.batchSize > 0
    ensures ReachesAlone(c, 2 * DATABASE_TIMEOUT, Started(c, 2 * DATABASE_TIMEOUT))
  {
    var now, claiming := 2 * DATABASE_TIMEOUT, Claiming(0, Ids(c.batchSize));
    BatchClaimed(c);
    var late :| Reachable(c, Alone(c, 0, claiming, late));
    ReachableNext(c, Alone(c, 0, claiming, late), Tick(now));
    ReachableNext(c, Alone(c, now, claiming, late), StartPool("A"));
    GoesOn(c, now, claiming, Started(c, now), late);
  }

  /** The owner's activity replaced. */
  lemma GoesOn(c: Config, now: Time, a: Activity, b: Activity, late: set<Late>)
    ensures Alone(c, now, a, late).(owners := Alone(c, now, a, late).owners["A" := b]) == Alone(c, now, b, late)
  {
  }

  // ---------- one round of the pool ----------

  /**
   * Within the round that began at `t` with item `k`: `taken` items have been handed out, the publishes
   * of the first `ended` of them are over, and the first `settled` of them are finished.
   */
  predicate Mid(c: Config, a: Activity, now: Time, k: nat, t: Time, taken: nat, ended: nat, settled: nat)
    requires c.workers > 0
  {
    && a.Working? && a.claimedAt == 0 && a.ids == Ids(c.batchSize)
    && |a.phases| == |a.pool.errors| == |a.pool.fates| == |a.pool.writes| == |a.pool.calls| == c.batchSize
    && a.pool.begin == 2 * DATABASE_TIMEOUT && !a.pool.canceled && |a.pool.lanes| == Lanes(c)
    && settled <= ended <= taken <= Lanes(c) && k + taken <= c.batchSize && a.pool.next == k + taken
    && (forall i :: 0 <= i < Lanes(c) ==>
          a.pool.lanes[i] == if i < settled then Pool.Idle(now)
                             else if i < taken then Pool.Busy(k + i, t) else Pool.Idle(t))
    && (forall i :: 0 <= i < c.batchSize ==>
          a.phases[i] == if i < k + settled then Done else if i < k + ended then Settling(t + PUBLISH_TIMEOUT)
                         else if i < k + taken then Publishing(t) else Waiting)
  }

  lemma {:induction false} TakeAll(c: Config, a: Activity, k: nat, t: Time, taken: nat, goal: nat) returns (b: Activity)
    requires c.workers > 0 && Mid(c, a, t, k, t, taken, 0, 0) && ReachesAlone(c, t, a)
    requires taken <= goal <= Lanes(c) && k + goal <= c.batchSize
    ensures Mid(c, b, t, k, t, goal, 0, 0) && ReachesAlone(c, t, b)
    decreases goal - taken
  {
    if taken == goal {
      b := a;
    } else {
      var late :| Reachable(c, Alone(c, t, a, late));
      ReachableNext(c, Alone(c, t, a, late), Take("A", taken));
      var next := TakeItem(a, taken, t);
      GoesOn(c, t, a, next, late);
      b := TakeAll(c, next, k, t, taken + 1, goal);
    }
  }

  /** Time passes while every worker is busy, or no item waits. */
  lemma TimePasses(c: Config, a: Activity, now: Time, k: nat, t: Time, taken: nat, ended: nat, to: Time)
    requires c.workers > 0 && Mid(c, a, now, k, t, taken, ended, 0) && ReachesAlone(c, now, a)
    requires taken == Lanes(c) || k + taken == c.batchSize
    requires t <= now <= to && to <= if ended == 0 then t + PUBLISH_TIMEOUT else t + ITEM_LIMIT
    requires ended == 0 || ended == taken
    ensures Mid(c, a, to, k, t, taken, ended, 0) && ReachesAlone(c, to, a)
  {
    var late :| Reachable(c, Alone(c, now, a, late));
    ReachableNext(c, Alone(c, now, a, late), Tick(to));
    assert Next(c, Alone(c, now, a, late), Tick(to)) == Alone(c, to, a, late);
  }

  lemma {:induction false} EndAll(c: Config, a: Activity, k: nat, t: Time, taken: nat, ended: nat) returns (b: Activity)
    requires c.workers > 0 && Mid(c, a, t + PUBLISH_TIMEOUT, k, t, taken, ended, 0)
    requires ReachesAlone(c, t + PUBLISH_TIMEOUT, a)
    ensures Mid(c, b, t + PUBLISH_TIMEOUT, k, t, taken, taken, 0) && ReachesAlone(c, t + PUBLISH_TIMEOUT, b)
    decreases taken - ended
  {
    if ended == taken {
      b := a;
    } else {
      var late :| Reachable(c, Alone(c, t + PUBLISH_TIMEOUT, a, late));
      ReachableNext(c, Alone(c, t + PUBLISH_TIMEOUT, a, late), PublishEnds("A", k + ended));
      var next := a.(phases := a.phases[k + ended := Settling(t + PUBLISH_TIMEOUT)]);
      GoesOn(c, t + PUBLISH_TIMEOUT, a, next, late);
      b := EndAll(c, next, k, t, taken, ended + 1);
    }
  }

  lemma {:induction false} SettleAll(c: Config, a: Activity, k: nat, t: Time, taken: nat,
        settled: nat) returns (b: Activity)
    requires c.workers > 0 && Mid(c, a, t + ITEM_LIMIT, k, t, taken, taken, settled)
    requires ReachesAlone(c, t + ITEM_LIMIT, a)
    ensures Mid(c, b, t + ITEM_LIMIT, k, t, taken, taken, taken) && ReachesAlone(c, t + ITEM_LIMIT, b)
    decreases taken - settled
  {
    if settled == taken {
      b := a;
    } else {
      var late :| Reachable(c, Alone(c, t + ITEM_LIMIT, a, late));
      var step := SettleRow("A", settled, Outbox.Publish(t), false, false);
      ReachableNext(c, Alone(c, t + ITEM_LIMIT, a, late), step);
      var next := FinishItem(a, settled, false, t + ITEM_LIMIT);
      var late' := Next(c, Alone(c, t + ITEM_LIMIT, a, late), step).late;
      GoesOn(c, t + ITEM_LIMIT, a, next, late);
      assert Next(c, Alone(c, t + ITEM_LIMIT, a, late), step) == Alone(c, t + ITEM_LIMIT, next, late');
      b := SettleAll(c, next, k, t, taken, settled + 1);
    }
  }

  /** A full round: every worker spends the whole limit on one item. */
  lemma FullRound(c: Config, a: Activity, k: nat, t: Time) returns (b: Activity)
    requires c.workers > 0 && Mid(c, a, t, k, t, 0, 0, 0) && ReachesAlone(c, t, a)
    requires k + Lanes(c) <= c.batchSize
    ensures Mid(c, b, t + ITEM_LIMIT, k + Lanes(c), t + ITEM_LIMIT, 0, 0, 0)
            && ReachesAlone(c, t + ITEM_LIMIT, b)
  {
    var m := Lanes(c);
    b := TakeAll(c, a, k, t, 0, m);
    TimePasses(c, b, t, k, t, m, 0, t + PUBLISH_TIMEOUT);
    b := EndAll(c, b, k, t, m, 0);
    TimePasses(c, b, t + PUBLISH_TIMEOUT, k, t, m, m, t + ITEM_LIMIT);
    b := SettleAll(c, b, k, t, m, 0);
  }

  lemma {:induction false} FullRounds(c: Config, rounds: nat) returns (a: Activity)
    requires c.workers > 0 && c.batchSize > 0 && Pool.FirstOf(rounds, Lanes(c)) <= c.batchSize
    ensures var t := Pool.RoundStart(2 * DATABASE_TIMEOUT, ItemPace(2 * DATABASE_TIMEOUT), rounds);
            Mid(c, a, t, Pool.FirstOf(rounds, Lanes(c)), t, 0, 0, 0) && ReachesAlone(c, t, a)
  {
    if rounds == 0 {
      BatchStarted(c);
      a := Started(c, 2 * DATABASE_TIMEOUT);
    } else {
      a := FullRounds(c, rounds - 1);
      a := FullRound(c, a, Pool.FirstOf(rounds - 1, Lanes(c)),
                     Pool.RoundStart(2 * DATABASE_TIMEOUT, ItemPace(2 * DATABASE_TIMEOUT), rounds - 1));
    }
  }

  // ---------- the last round, and a second owner ----------

  /** The publishes of the last round may end exactly when the minimum lease does. */
  lemma LastRoundEnds(c: Config, rounds: nat)
    requires c.workers > 0 && rounds + 1 == Rounds(c.batchSize, c.workers)
    ensures Pool.RoundStart(2 * DATABASE_TIMEOUT, ItemPace(2 * DATABASE_TIMEOUT), rounds) + PUBLISH_TIMEOUT
            == MinimumLease(c.batchSize, c.workers)
  {
    Pool.RoundStartIs(2 * DATABASE_TIMEOUT, ItemPace(2 * DATABASE_TIMEOUT), rounds);
  }

  /** An owner with a batch of one row, which it has begun to publish at once. */
  function Hurried(c: Config, now: Time, id: Uuid): (a: Activity)
    requires c.workers > 0
    ensures a.Working?
  {
    TakeItem(Working(now, [id], Pool.Start(now, c.workers, 1), [Waiting]), 0, now)
  }

  /** The state after an owner has claimed an available row and begun to publish it. */
  function Publishes(c: Config, s: System, owner: string, id: Uuid): System
    requires c.workers > 0
  {
    s.(rows := ClaimRows(s.rows, [id], owner, s.now, c.lease), owners := s.owners[owner := Hurried(c, s.now, id)])
  }

  lemma ReachPublishes(c: Config, s: System, owner: string, id: Uuid)
    requires c.workers > 0 && c.batchSize > 0 && Reachable(c, s) && owner !in s.owners
    requires id in s.rows && Available(s.rows[id], s.now)
    ensures Reachable(c, Publishes(c, s, owner, id))
    ensures IsPublishing(Publishes(c, s, owner, id), owner, 0)
  {
    var claim := Step.Claim(owner, [id], s.rows.Keys - {id}, true);
    assert ValidChoice(s.rows, [id], s.rows.Keys - {id}, c.batchSize, s.now);
    ReachableNext(c, s, claim);
    var claimed := Next(c, s, claim);
    ReachableNext(c, claimed, StartPool(owner));
    var started := Next(c, claimed, StartPool(owner));
    assert seq(1, _ => Waiting) == [Waiting];
    assert started.owners[owner] == Working(s.now, [id], Pool.Start(s.now, c.workers, 1), [Waiting]);
    ReachableNext(c, started, Take(owner, 0));
    assert Next(c, started, Take(owner, 0)).owners == s.owners[owner := Hurried(c, s.now, id)];
  }

  /** Any lease below the minimum lets some run publish one row twice at the same time. */
  lemma ShorterLeaseOverlaps(c: Config) returns (s: System)
    requires c.workers > 0 && c.batchSize > 0 && LeaseLength(c.lease) < MinimumLease(c.batchSize, c.workers)
    ensures Reachable(c, s) && !NoOverlap(s)
  {
    var n, m := c.batchSize, Lanes(c);
    Pool.LastRound(n, 0, c.workers);
    var rounds := Rounds(n, c.workers) - 1;
    Pool.LaneRounds(c.workers, n, 0);
    Pool.LastRoundItems(n, m, rounds);
    LastRoundEnds(c, rounds);
    var k, t := Pool.FirstOf(rounds, m), Pool.RoundStart(2 * DATABASE_TIMEOUT, ItemPace(2 * DATABASE_TIMEOUT), rounds);
    var a := FullRounds(c, rounds);
    a := TakeAll(c, a, k, t, 0, n - k);
    TimePasses(c, a, t, k, t, n - k, 0, t + PUBLISH_TIMEOUT);
    var late :| Reachable(c, Alone(c, t + PUBLISH_TIMEOUT, a, late));
    var alone := Alone(c, t + PUBLISH_TIMEOUT, a, late);
    assert Ids(n)[k] == k;
    ReachPublishes(c, alone, "B", k);
    s := Publishes(c, alone, "B", k);
    assert IsPublishing(s, "A", k) && s.owners["A"].ids[k] == s.owners["B"].ids[0];
  }

  // ---------- an unanswered Release that takes effect after its owner has claimed the row again ----------

  /** The table after the owner has claimed its one row at time 0. */
  function OneClaimed(c: Config): Table {
    ClaimRows(Rows(1), [0], "A", 0, c.lease)
  }

  /** The owner's first publish fails ... */
  lemma PublishFails(c: Config) returns (a: Activity)
    requires c.workers > 0 && c.batchSize > 0
    ensures a.Working? && a.phases == [Settling(0)] && a.(phases := [Publishing(0)]) == Hurried(c, 0, 0)
    ensures Reachable(c, System(0, OneClaimed(c), map["A" := a], {}))
  {
    var hurried := Hurried(c, 0, 0);
    a := hurried.(phases := [Settling(0)]);
    assert hurried.phases == [Publishing(0)];
    RowsInserted(c, 1);
    var s := System(0, Rows(1), map[], {});
    ReachPublishes(c, s, "A", 0);
    var t := Publishes(c, s, "A", 0);
    ReachableNext(c, t, PublishEnds("A", 0));
    assert t.owners["A"].phases[0 := Settling(0)] == [Settling(0)];
    assert Next(c, t, PublishEnds("A", 0)) == System(0, OneClaimed(c), map["A" := a], {});
  }

  /** ... its Release is not answered, the batch ends ... */
  lemma BatchEnds(c: Config)
    requires c.workers > 0 && c.batchSize > 0
    ensures Reachable(c, System(0, OneClaimed(c), map[], {Late("A", 0, ReleaseUntil(0))}))
  {
    var a := PublishFails(c);
    var s, step := System(0, OneClaimed(c), map["A" := a], {}), SettleRow("A", 0, ReleaseUntil(0), false, false);
    ReachableNext(c, s, step);
    var t := Next(c, s, step);
    assert t.owners["A"].phases == [Done] && t.late == {Late("A", 0, ReleaseUntil(0))};
    ReachableNext(c, t, EndBatch("A"));
    assert t.owners - {"A"} == map[];
  }

  /** ... and so does the lease. */
  lemma ReleaseUnanswered(c: Config) returns (s: System)
    requires c.workers > 0 && c.batchSize > 0
    ensures Reachable(c, s) && s.owners == map[] && s.late == {Late("A", 0, ReleaseUntil(0))}
    ensures 0 in s.rows && Available(s.rows[0], s.now) && s.now >= 0 && s.rows[0].publishedAt == None
  {
    var end := Max(1, LeaseLength(c.lease) + 1);
    BatchEnds(c);
    var t := System(0, OneClaimed(c), map[], {Late("A", 0, ReleaseUntil(0))});
    ReachableNext(c, t, Tick(end));
    s := t.(now := end);
  }

  /** With any lease: the owner publishes the row again when its old Release lets another one claim it. */
  lemma LateReleaseOverlaps(c: Config) returns (s: System)
    requires c.workers > 0 && c.batchSize > 0 && c.lateReleases
    ensures Reachable(c, s) && !NoOverlap(s)
  {
    s := ReleaseUnanswered(c);
    ReachPublishes(c, s, "A", 0);
    s := Publishes(c, s, "A", 0);
    ReachableNext(c, s, Arrive(Late("A", 0, ReleaseUntil(0))));
    s := Next(c, s, Arrive(Late("A", 0, ReleaseUntil(0))));
    ReachPublishes(c, s, "B", 0);
    s := Publishes(c, s, "B", 0);
    assert IsPublishing(s, "A", 0) && s.owners["A"].ids[0] == s.owners["B"].ids[0];
  }

  // ---------- the exact condition ----------

  ghost predicate Safe(c: Config) {
    forall s :: Reachable(c, s) ==> NoOverlap(s)
  }

  /**
   * For every batch size and number of workers: publishes of one row never overlap, in any run, precisely
   * when the lease is at least the minimum and no unanswered Release takes effect while its owner, having
   * claimed the row again, is yet to publish it or is publishing it.
   */
  lemma MinimumLeaseIsExact(c: Config)
    requires c.workers > 0 && c.batchSize > 0
    ensures Safe(c) <==> LeaseLength(c.lease) >= Rounds(c.batchSize, c.workers) * 15_000_000_000 + 5_000_000_000
                         && !c.lateReleases
  {
    if LeaseLength(c.lease) < MinimumLease(c.batchSize, c.workers) {
      var s := ShorterLeaseOverlaps(c);
    } else if c.lateReleases {
      var s := LateReleaseOverlaps(c);
    } else {
      forall s | Reachable(c, s) ensures NoOverlap(s) {
        var begin: Time, steps :| s == Run(c, Initial(begin), steps);
        forall o1, i1: nat, o2, i2: nat |
          IsPublishing(s, o1, i1) && IsPublishing(s, o2, i2) && s.owners[o1].ids[i1] == s.owners[o2].ids[i2]
          ensures o1 == o2 && i1 == i2
        {
          PublishesNeverOverlap(c, begin, steps, o1, i1, o2, i2);
        }
      }
    }
  }

  /** Where nothing overflows and no Release comes that late, the guard accepts exactly the safe leases. */
  lemma GuardAcceptsExactlyTheSafe(c: Config)
    requires Sizes(c) && InRange(c.batchSize, c.workers)
    ensures Safe(c) <==> GuardAccepts(c.batchSize, c.workers, c.lease) && !c.lateReleases
  {
    MinimumLeaseIsExact(c);
    GuardIsExact(c.batchSize, c.workers, c.lease);
    if c.lease >= MinimumLease(c.batchSize, c.workers) {
      LeaseCoversMinimum(c.batchSize, c.workers, c.lease);
    }
  }

  /** Every lease that the guard accepts prevents overlapping publishes. */
  ghost predicate Protects(batchSize: int64, workers: int64, lateReleases: bool)
    requires batchSize > 0 && workers > 0
  {
    forall lease: int64 ::
      GuardAccepts(batchSize, workers, lease) ==> Safe(Config(batchSize, workers, lease, lateReleases))
  }

  /** The guard does, for exactly the sizes with which nothing overflows, and as long as no Release comes that late. */
  lemma GuardProtectsIff(batchSize: int64, workers: int64, lateReleases: bool)
    requires batchSize > 0 && workers > 0
    ensures Protects(batchSize, workers, lateReleases) <==> InRange(batchSize, workers) && !lateReleases
  {
    if !InRange(batchSize, workers) {
      GuardIsSoundIff(batchSize, workers);
      var lease: int64 :| GuardAccepts(batchSize, workers, lease) && lease < MinimumLease(batchSize, workers);
      MinimumLeaseIsExact(Config(batchSize, workers, lease, lateReleases));
    } else {
      forall lease: int64
        ensures GuardAccepts(batchSize, workers, lease) ==>
                  (Safe(Config(batchSize, workers, lease, lateReleases)) <==> !lateReleases)
      {
        GuardAcceptsExactlyTheSafe(Config(batchSize, workers, lease, lateReleases));
      }
      assert GuardAccepts(batchSize, workers, MAX_INT64);
    }
  }
}
