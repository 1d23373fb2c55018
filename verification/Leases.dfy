/**
 * Many publishers on one outbox, with a clock (internal/outbox/publisher.go and the minimum-lease
 * guard of cmd/outbox-publisher/main.go). Each owner claims a batch, runs it through its worker
 * pool, and for every row first publishes and then settles. Calls respect their timeouts; processes
 * may crash and contexts may be cancelled at any moment; and a statement that was not answered may take
 * effect at any later time.
 */
module Leases {
  import opened Prelude
  import opened Outbox
  import Pool = WorkerPool

  const PUBLISH_TIMEOUT: int := 10 * SECOND
  const DATABASE_TIMEOUT: int := 5 * SECOND
  /** publishOne: one publish and one statement. */
  const ITEM_LIMIT: nat := 15 * SECOND

  /** A batch that begins then spends at most the limit on every item. */
  function ItemPace(begin: Time): Pool.Pace {
    Pool.Pace(begin, ITEM_LIMIT)
  }

  // ---------- the startup guard ----------

  function MinimumLease(batchSize: nat, workers: nat): int
    requires workers > 0
  {
    Rounds(batchSize, workers) * (PUBLISH_TIMEOUT + DATABASE_TIMEOUT) + 5 * SECOND
  }

  /** What `run` computes: every operation on int64, the sum included. */
  function ComputedMinimum(batchSize: int64, workers: int64): int64
    requires batchSize > 0 && workers > 0
  {
    var rounds := Quotient(Wrap64(batchSize + workers - 1), workers);
    Wrap64(Wrap64(rounds * (PUBLISH_TIMEOUT + DATABASE_TIMEOUT)) + 5 * SECOND)
  }

  predicate GuardAccepts(batchSize: int64, workers: int64, lease: int64)
    requires batchSize > 0 && workers > 0
  {
    lease >= ComputedMinimum(batchSize, workers)
  }

  /** Neither the sum nor the product overflows. */
  predicate InRange(batchSize: int64, workers: int64)
    requires batchSize > 0 && workers > 0
  {
    batchSize + workers - 1 <= MAX_INT64 && MinimumLease(batchSize, workers) <= MAX_INT64
  }

  /** Within range the guard is exactly the intended bound. */
  lemma GuardIsExact(batchSize: int64, workers: int64, lease: int64)
    requires batchSize > 0 && workers > 0 && InRange(batchSize, workers)
    ensures GuardAccepts(batchSize, workers, lease) <==> lease >= MinimumLease(batchSize, workers)
  {
    assert Rounds(batchSize, workers) * (PUBLISH_TIMEOUT + DATABASE_TIMEOUT) >= 0;
  }

  /** When only the sum wraps, the computed minimum is five seconds or less. */
  lemma WrappedSumIsTooLow(batchSize: int64, workers: int64)
    requires batchSize > 0 && workers > 0 && batchSize + workers - 1 > MAX_INT64
    requires MinimumLease(batchSize, workers) <= MAX_INT64
    ensures ComputedMinimum(batchSize, workers) <= 5 * SECOND < MinimumLease(batchSize, workers)
  {
    var sum, r := batchSize + workers - 1, Rounds(batchSize, workers);
    var wrapped: int := Wrap64(sum);
    assert wrapped == sum - 0x1_0000_0000_0000_0000 < 0 && -wrapped <= sum;
    var q := -wrapped / workers;
    Pool.QuotientsOrdered(-wrapped, sum, workers);
    assert 0 <= q <= r;
    Pool.AtLeastOneRound(batchSize, workers);
    assert q * 15_000_000_000 <= r * 15_000_000_000;
    assert Quotient(wrapped, workers) == -q;
  }

  /** The guard accepts too short a lease for exactly the sizes whose sum or product overflows. */
  lemma GuardIsSoundIff(batchSize: int64, workers: int64)
    requires batchSize > 0 && workers > 0
    ensures (forall lease: int64 :: GuardAccepts(batchSize, workers, lease) ==>
             lease >= MinimumLease(batchSize, workers))
            <==> InRange(batchSize, workers)
  {
    if InRange(batchSize, workers) {
      forall lease: int64 | GuardAccepts(batchSize, workers, lease) ensures lease >= MinimumLease(batchSize, workers) {
        GuardIsExact(batchSize, workers, lease);
      }
    } else if MinimumLease(batchSize, workers) > MAX_INT64 {
      assert GuardAccepts(batchSize, workers, MAX_INT64);
    } else {
      WrappedSumIsTooLow(batchSize, workers);
      assert GuardAccepts(batchSize, workers, 5 * SECOND);
    }
  }

  lemma ProductWraps()
    ensures GuardAccepts(614_891_470, 1, 1) && 1 < MinimumLease(614_891_470, 1)
  {
    assert Rounds(614_891_470, 1) == 614_891_470;
  }

  lemma SumWraps()
    ensures GuardAccepts(50, MAX_INT64, 5 * SECOND) && 5 * SECOND < MinimumLease(50, MAX_INT64) <= MAX_INT64
  {
    Pool.DivisionIsUnique(50 + MAX_INT64 - 1, MAX_INT64, 1, 49);
  }

  /** For instance a product that overflows to one nanosecond, and a sum that overflows to no round at all. */
  lemma GuardWraps()
    ensures GuardAccepts(614_891_470, 1, 1) && 1 < MinimumLease(614_891_470, 1)
    ensures GuardAccepts(50, MAX_INT64, 5 * SECOND) && 5 * SECOND < MinimumLease(50, MAX_INT64) <= MAX_INT64
  {
    ProductWraps();
    SumWraps();
  }

  /** The lease that reaches the database keeps every whole second of the minimum. */
  lemma LeaseCoversMinimum(batchSize: nat, workers: nat, lease: int64)
    requires workers > 0 && lease >= MinimumLease(batchSize, workers)
    ensures LeaseLength(lease) >= MinimumLease(batchSize, workers)
  {
    var r := Rounds(batchSize, workers);
    assert MinimumLease(batchSize, workers) == (r * 15000 + 5000) * MILLISECOND;
    var minimum := r * 15000 + 5000;
    assert lease / MILLISECOND >= minimum;
  }

  // ---------- the machine ----------

  /**
   * `lateReleases`: whether an unanswered Release may take effect after its owner has claimed the row
   * again, while that owner has yet to publish it or is publishing it.
   */
  datatype Config = Config(batchSize: nat, workers: nat, lease: int64, lateReleases: bool)

  /** Positive int64 sizes, as the configuration reader accepts them. */
  predicate Sizes(c: Config) {
    0 < c.workers <= MAX_INT64 && 0 < c.batchSize <= MAX_INT64
  }

  /** The lease in the database covers the minimum. */
  predicate EnoughLease(c: Config) {
    c.workers > 0 && c.batchSize > 0 && LeaseLength(c.lease) >= MinimumLease(c.batchSize, c.workers)
  }

  /** Where an owner is with one of its claimed rows. */
  datatype Phase = Waiting | Publishing(since: Time) | Settling(since: Time) | Done

  datatype Activity =
    /** The claim's reply and PendingCount are under way. */
    | Claiming(claimedAt: Time, ids: seq<Uuid>)
    | Working(claimedAt: Time, ids: seq<Uuid>, pool: Pool.Pool, phases: seq<Phase>)

  /** A statement that was not answered in time, or whose caller has crashed. */
  datatype Late = Late(owner: string, id: Uuid, how: Settlement)

  /**
   * An owner without an activity is between batches, or not running at all. What is late may still take
   * effect; equal statements may be late several times.
   */
  datatype System = System(now: Time, rows: Table, owners: map<string, Activity>, late: set<Late>)

  function Initial(begin: Time): System {
    System(begin, map[], map[], {})
  }

  datatype Step =
    | Tick(to: Time)
    | InsertRow(row: Row)
    /** Without a reply the owner knows nothing of what it claimed, whenever that happens. */
    | Claim(owner: string, chosen: seq<Uuid>, skipped: set<Uuid>, replied: bool)
    | StartPool(owner: string)
    | Take(owner: string, lane: nat)
    | PublishEnds(owner: string, item: nat)
    | SettleRow(owner: string, lane: nat, how: Settlement, executed: bool, ok: bool)
    | Cancel(owner: string)
    | EndBatch(owner: string)
    | Crash(owner: string)
    | Arrive(statement: Late)

  predicate MayPass(a: Activity, now: Time, to: Time) {
    match a
    case Claiming(claimedAt, _) => to <= claimedAt + 2 * DATABASE_TIMEOUT
    case Working(_, _, pool, phases) =>
      && Pool.CanTick(ItemPace(pool.begin), pool, now, to)
      && forall i :: 0 <= i < |phases| ==>
           && (phases[i].Publishing? ==> to <= phases[i].since + PUBLISH_TIMEOUT)
           && (phases[i].Settling? ==> to <= phases[i].since + DATABASE_TIMEOUT)
  }

  /** Rows that the owner has yet to publish, or is publishing. */
  predicate NeedsLease(a: Activity, i: nat)
    requires i < |a.ids|
  {
    a.Claiming? || (i < |a.phases| && (a.phases[i].Waiting? || a.phases[i].Publishing?))
  }

  /** The same batch, of which no more is left to publish. */
  ghost predicate NeedsNoMore(a: Activity, b: Activity) {
    b.ids == a.ids && forall i :: 0 <= i < |b.ids| && NeedsLease(b, i) ==> NeedsLease(a, i)
  }

  predicate NeedsRow(owners: map<string, Activity>, owner: string, i: nat, id: Uuid) {
    owner in owners && i < |owners[owner].ids| && owners[owner].ids[i] == id && NeedsLease(owners[owner], i)
  }

  /** A Release whose owner is again yet to publish the row, or publishing it. */
  ghost predicate Reclaimed(s: System, statement: Late) {
    statement.how.ReleaseUntil? && exists i: nat :: NeedsRow(s.owners, statement.owner, i, statement.id)
  }

  predicate IsWorking(s: System, owner: string) {
    owner in s.owners && s.owners[owner].Working?
  }

  ghost predicate Enabled(c: Config, s: System, step: Step) {
    match step
    case Tick(to) => s.now <= to && forall o :: o in s.owners ==> MayPass(s.owners[o], s.now, to)
    case InsertRow(row) => row.id !in s.rows
    case Claim(owner, chosen, skipped, replied) =>
      (replied ==> owner !in s.owners) && ValidChoice(s.rows, chosen, skipped, c.batchSize, s.now)
    case StartPool(owner) => owner in s.owners && s.owners[owner].Claiming? && c.workers > 0
    case Take(owner, lane) =>
      && IsWorking(s, owner) && Pool.CanHand(s.owners[owner].pool, lane)
      && s.owners[owner].pool.next < |s.owners[owner].phases|
    case PublishEnds(owner, item) =>
      IsWorking(s, owner) && item < |s.owners[owner].phases| && s.owners[owner].phases[item].Publishing?
    case SettleRow(owner, lane, _, _, _) =>
      && IsWorking(s, owner) && Pool.CanFinish(s.owners[owner].pool, lane)
      && var i := s.owners[owner].pool.lanes[lane].index;
      && i < |s.owners[owner].phases| == |s.owners[owner].ids| && s.owners[owner].phases[i].Settling?
    case Cancel(owner) => IsWorking(s, owner)
    case EndBatch(owner) => IsWorking(s, owner)
                            && forall i :: 0 <= i < |s.owners[owner].phases| ==> s.owners[owner].phases[i].Done?
    case Crash(owner) => owner in s.owners
    case Arrive(statement) => statement in s.late && (c.lateReleases || !Reclaimed(s, statement))
  }

  function TakeItem(a: Activity, lane: nat, now: Time): Activity
    requires a.Working? && Pool.CanHand(a.pool, lane) && a.pool.next < |a.phases|
  {
    a.(pool := Pool.DoHand(a.pool, lane, now),
       phases := a.phases[a.pool.next := if a.pool.canceled then Done else Publishing(now)])
  }

  function FinishItem(a: Activity, lane: nat, ok: bool, now: Time): Activity
    requires a.Working? && Pool.CanFinish(a.pool, lane) && a.pool.lanes[lane].index < |a.phases|
  {
    a.(pool := Pool.DoFinish(a.pool, lane, ok, now), phases := a.phases[a.pool.lanes[lane].index := Done])
  }

  /** A step that is not enabled leaves the state as it is. */
  ghost function Next(c: Config, s: System, step: Step): System {
    if !Enabled(c, s, step) then s
    else
      match step
      case Tick(to) => s.(now := to)
      case InsertRow(row) => s.(rows := s.rows[row.id := row])
      case Claim(owner, chosen, _, replied) =>
        s.(rows := ClaimRows(s.rows, chosen, owner, s.now, c.lease),
           owners := if replied then s.owners[owner := Claiming(s.now, chosen)] else s.owners)
      case StartPool(owner) =>
        var a := s.owners[owner];
        s.(owners := s.owners[owner := Working(a.claimedAt, a.ids,
                                               Pool.Start(s.now, c.workers, |a.ids|),
                                               seq(|a.ids|, _ => Waiting))])
      case Take(owner, lane) => s.(owners := s.owners[owner := TakeItem(s.owners[owner], lane, s.now)])
      case PublishEnds(owner, item) =>
        var a := s.owners[owner];
        s.(owners := s.owners[owner := a.(phases := a.phases[item := Settling(s.now)])])
      case SettleRow(owner, lane, how, executed, ok) =>
        var a := s.owners[owner];
        var id := a.ids[a.pool.lanes[lane].index];
        s.(rows := if executed then Settle(s.rows, id, owner, how) else s.rows,
           owners := s.owners[owner := FinishItem(a, lane, ok, s.now)],
           late := if executed then s.late else s.late + {Late(owner, id, how)})
      case Cancel(owner) =>
        var a := s.owners[owner];
        s.(owners := s.owners[owner := a.(pool := a.pool.(canceled := true))])
      case EndBatch(owner) => s.(owners := s.owners - {owner})
      case Crash(owner) => s.(owners := s.owners - {owner})
      case Arrive(l) => s.(rows := Settle(s.rows, l.id, l.owner, l.how))
  }

  ghost function Run(c: Config, s: System, steps: seq<Step>): System {
    if steps == [] then s else Next(c, Run(c, s, steps[..|steps| - 1]), steps[|steps| - 1])
  }

  // ---------- the invariant ----------

  /** The owner's lease on the row, taken at `claimedAt`, is still in the table. */
  predicate Leased(c: Config, rows: Table, id: Uuid, owner: string, claimedAt: Time) {
    id in rows && rows[id].lockedBy == Some(owner) && rows[id].lockedUntil == Some(claimedAt + LeaseLength(c.lease))
  }

  ghost predicate WorkOk(c: Config, a: Activity, now: Time)
    requires a.Working?
  {
    && |a.ids| == |a.phases| == |a.pool.errors| <= c.batchSize
    && Pool.Inv(ItemPace(a.pool.begin), Pool.Timed(now, a.pool))
    && a.pool.begin <= a.claimedAt + 2 * DATABASE_TIMEOUT
    && |a.pool.lanes| == Pool.LaneCount(c.workers, |a.ids|)
    && forall i :: 0 <= i < |a.phases| ==> PhaseOk(a, i, now)
  }

  predicate PhaseOk(a: Activity, i: nat, now: Time)
    requires a.Working? && i < |a.phases| == |a.pool.fates|
  {
    match a.phases[i]
    case Waiting => a.pool.fates[i].Waiting?
    case Publishing(since) =>
      && a.pool.fates[i].Running? && i < |a.pool.starts| && since == a.pool.starts[i] && now <= since + PUBLISH_TIMEOUT
    case Settling(since) => a.pool.fates[i].Running?
    case Done => a.pool.fates[i].Returned? || a.pool.fates[i].Skipped?
  }

  ghost predicate TimesOk(c: Config, a: Activity, now: Time) {
    if a.Claiming? then |a.ids| <= c.batchSize && a.claimedAt <= now <= a.claimedAt + 2 * DATABASE_TIMEOUT
    else WorkOk(c, a, now)
  }

  /** PUBLISHED or FAILED: nobody can claim or settle the row any more. */
  predicate Terminal(rows: Table, id: Uuid) {
    && id in rows && rows[id].lockedBy == None
    && (rows[id].status == RowPublished || rows[id].status == RowFailed)
  }

  /** The owner's lease is in the table, or a late MarkPublished or MarkFailed of its own has ended it for good. */
  predicate Guarded(c: Config, rows: Table, id: Uuid, owner: string, claimedAt: Time) {
    Leased(c, rows, id, owner, claimedAt) || Terminal(rows, id)
  }

  predicate LeasesOk(c: Config, rows: Table, owner: string, a: Activity) {
    && (forall i, j :: 0 <= i < j < |a.ids| ==> a.ids[i] != a.ids[j])
    && forall i :: 0 <= i < |a.ids| && NeedsLease(a, i) ==> Guarded(c, rows, a.ids[i], owner, a.claimedAt)
  }

  /** Nobody else has yet to publish, or is publishing, the same row. */
  ghost predicate Exclusive(owners: map<string, Activity>) {
    forall o1, i1: nat, o2, i2: nat, id ::
      NeedsRow(owners, o1, i1, id) && NeedsRow(owners, o2, i2, id) ==> o1 == o2 && i1 == i2
  }

  ghost predicate Inv(c: Config, s: System) {
    && (forall o :: o in s.owners ==> TimesOk(c, s.owners[o], s.now))
    && (forall o :: o in s.owners ==> LeasesOk(c, s.rows, o, s.owners[o]))
    && Exclusive(s.owners)
  }

  lemma LeaseCoversBatch(c: Config, n: nat)
    requires EnoughLease(c) && n <= c.batchSize
    ensures Rounds(n, c.workers) * ITEM_LIMIT + 5 * SECOND <= LeaseLength(c.lease)
  {
    Pool.RoundsMonotone(n, c.batchSize, c.workers);
  }

  /** Heart of the bound: a row that still needs its lease is within it. */
  lemma LeaseIsLongEnough(c: Config, a: Activity, i: nat, now: Time)
    requires EnoughLease(c) && TimesOk(c, a, now) && i < |a.ids| && NeedsLease(a, i)
    ensures now <= a.claimedAt + LeaseLength(c.lease)
  {
    LeaseCoversBatch(c, |a.ids|);
    if a.Claiming? {
      Pool.LastRound(|a.ids|, i, c.workers);
    } else {
      WithinRounds(c, a, i, now);
    }
  }

  lemma WithinRounds(c: Config, a: Activity, i: nat, now: Time)
    requires c.workers > 0 && a.Working? && WorkOk(c, a, now) && i < |a.ids| && NeedsLease(a, i)
    ensures now <= a.pool.begin + Rounds(|a.ids|, c.workers) * ITEM_LIMIT - DATABASE_TIMEOUT
  {
    var p, n, w := a.pool, |a.ids|, |a.pool.lanes|;
    assert PhaseOk(a, i, now) && Pool.ItemOk(p, i);
    Pool.LaneRounds(c.workers, n, 0);
    if a.phases[i].Waiting? {
      Pool.HandIsInTime(ItemPace(p.begin), p, now);
      Pool.LastRound(n, p.next, w);
      RoundBefore(p.begin, Pool.RoundOf(p.next, w), Rounds(n, w));
    } else {
      Pool.LastRound(n, i, w);
      RoundBefore(p.begin, Pool.RoundOf(i, w), Rounds(n, w));
    }
  }

  lemma RoundBefore(begin: Time, round: nat, rounds: nat)
    requires round + 1 <= rounds
    ensures Pool.RoundStart(begin, ItemPace(begin), round) <= begin + rounds * ITEM_LIMIT - ITEM_LIMIT
  {
    Pool.RoundsAscend(begin, ItemPace(begin), round + 1, rounds);
    Pool.RoundStartIs(begin, ItemPace(begin), rounds);
  }

  // ---------- every step keeps the invariant ----------

  /** Leases survive a change of the table that leaves the rows alone that still need one. */
  lemma LeasesTransfer(c: Config, rows: Table, rows': Table, o: string, a: Activity)
    requires LeasesOk(c, rows, o, a)
    requires forall i :: 0 <= i < |a.ids| && NeedsLease(a, i) ==> a.ids[i] in rows' && rows'[a.ids[i]] == rows[a.ids[i]]
    ensures LeasesOk(c, rows', o, a)
  {
  }

  lemma TickKeepsTimes(c: Config, a: Activity, now: Time, to: Time)
    requires TimesOk(c, a, now) && now <= to && MayPass(a, now, to)
    ensures TimesOk(c, a, to)
  {
    if a.Working? {
      Pool.NextKeepsInv(ItemPace(a.pool.begin), Pool.Timed(now, a.pool), Pool.Tick(to));
      forall i | 0 <= i < |a.phases| ensures PhaseOk(a, i, to) {
        assert PhaseOk(a, i, now);
      }
    }
  }

  lemma TakeKeeps(c: Config, rows: Table, o: string, a: Activity, lane: nat, now: Time)
    requires a.Working? && Pool.CanHand(a.pool, lane) && a.pool.next < |a.phases|
    requires TimesOk(c, a, now) && LeasesOk(c, rows, o, a)
    ensures TimesOk(c, TakeItem(a, lane, now), now) && LeasesOk(c, rows, o, TakeItem(a, lane, now))
    ensures NeedsNoMore(a, TakeItem(a, lane, now))
  {
    var b, k := TakeItem(a, lane, now), a.pool.next;
    Pool.NextKeepsInv(ItemPace(a.pool.begin), Pool.Timed(now, a.pool), Pool.Hand(lane));
    assert PhaseOk(a, k, now) && Pool.ItemOk(a.pool, k);
    forall i | 0 <= i < |b.phases| ensures PhaseOk(b, i, now) {
      assert PhaseOk(a, i, now) && Pool.ItemOk(a.pool, i);
    }
    assert forall i :: 0 <= i < |b.ids| && NeedsLease(b, i) ==> NeedsLease(a, i);
  }

  lemma PublishEndsKeeps(c: Config, rows: Table, o: string, a: Activity, item: nat, now: Time)
    requires a.Working? && item < |a.phases| && a.phases[item].Publishing?
    requires TimesOk(c, a, now) && LeasesOk(c, rows, o, a)
    ensures var b := a.(phases := a.phases[item := Settling(now)]);
            TimesOk(c, b, now) && LeasesOk(c, rows, o, b) && NeedsNoMore(a, b)
  {
    var b := a.(phases := a.phases[item := Settling(now)]);
    forall i | 0 <= i < |b.phases| ensures PhaseOk(b, i, now) {
      assert PhaseOk(a, i, now);
    }
    assert forall i :: 0 <= i < |b.ids| && NeedsLease(b, i) ==> NeedsLease(a, i);
  }

  lemma FinishKeepsTimes(c: Config, a: Activity, lane: nat, ok: bool, now: Time)
    requires a.Working? && Pool.CanFinish(a.pool, lane) && a.pool.lanes[lane].index < |a.phases|
    requires TimesOk(c, a, now)
    ensures TimesOk(c, FinishItem(a, lane, ok, now), now)
  {
    var b := FinishItem(a, lane, ok, now);
    Pool.NextKeepsInv(ItemPace(a.pool.begin), Pool.Timed(now, a.pool), Pool.Finish(lane, ok));
    forall i | 0 <= i < |b.phases| ensures PhaseOk(b, i, now) {
      assert PhaseOk(a, i, now);
    }
  }

  lemma CancelKeepsTimes(c: Config, a: Activity, now: Time)
    requires a.Working? && TimesOk(c, a, now)
    ensures TimesOk(c, a.(pool := a.pool.(canceled := true)), now)
  {
    var b := a.(pool := a.pool.(canceled := true));
    Pool.NextKeepsInv(ItemPace(a.pool.begin), Pool.Timed(now, a.pool), Pool.Cancel);
    forall i | 0 <= i < |b.phases| ensures PhaseOk(b, i, now) {
      assert PhaseOk(a, i, now);
    }
  }

  lemma StartKeeps(c: Config, rows: Table, o: string, a: Activity, now: Time)
    requires c.workers > 0 && a.Claiming? && TimesOk(c, a, now) && LeasesOk(c, rows, o, a)
    ensures var b := Working(a.claimedAt, a.ids, Pool.Start(now, c.workers, |a.ids|), seq(|a.ids|, _ => Waiting));
            TimesOk(c, b, now) && LeasesOk(c, rows, o, b) && NeedsNoMore(a, b)
  {
    Pool.StartInv(now, ItemPace(now), c.workers, |a.ids|);
  }

  /** A claim never takes a row that somebody still needs a lease on. */
  lemma ClaimKeeps(c: Config, s: System, owner: string, chosen: seq<Uuid>, skipped: set<Uuid>, replied: bool)
    requires EnoughLease(c) && Inv(c, s) && Enabled(c, s, Step.Claim(owner, chosen, skipped, replied))
    ensures Inv(c, Next(c, s, Step.Claim(owner, chosen, skipped, replied)))
  {
    var rows' := ClaimRows(s.rows, chosen, owner, s.now, c.lease);
    forall o | o in s.owners ensures LeasesOk(c, rows', o, s.owners[o]) {
      NeededIsNotClaimed(c, s, chosen, o);
      LeasesTransfer(c, s.rows, rows', o, s.owners[o]);
    }
    if replied {
      assert LeasesOk(c, rows', owner, Claiming(s.now, chosen));
      ClaimIsExclusive(c, s, owner, chosen);
    }
  }

  /** A row that somebody has yet to publish, or is publishing, is not available. */
  lemma NeededIsNotClaimed(c: Config, s: System, chosen: seq<Uuid>, o: string)
    requires EnoughLease(c) && Inv(c, s) && o in s.owners
    requires forall id :: id in chosen ==> id in s.rows && Available(s.rows[id], s.now)
    ensures forall i :: 0 <= i < |s.owners[o].ids| && NeedsLease(s.owners[o], i) ==> s.owners[o].ids[i] !in chosen
  {
    var a := s.owners[o];
    forall i | 0 <= i < |a.ids| && NeedsLease(a, i) ensures a.ids[i] !in chosen {
      LeaseIsLongEnough(c, a, i, s.now);
      assert Guarded(c, s.rows, a.ids[i], o, a.claimedAt);
    }
  }

  lemma ClaimIsExclusive(c: Config, s: System, owner: string, chosen: seq<Uuid>)
    requires EnoughLease(c) && Inv(c, s) && owner !in s.owners
    requires forall id :: id in chosen ==> id in s.rows && Available(s.rows[id], s.now)
    requires forall i, j :: 0 <= i < j < |chosen| ==> chosen[i] != chosen[j]
    ensures Exclusive(s.owners[owner := Claiming(s.now, chosen)])
  {
    var owners := s.owners[owner := Claiming(s.now, chosen)];
    forall o | o in s.owners { NeededIsNotClaimed(c, s, chosen, o); }
    forall o1, i1: nat, o2, i2: nat, id | NeedsRow(owners, o1, i1, id) && NeedsRow(owners, o2, i2, id)
      ensures o1 == o2 && i1 == i2
    {
      if o1 != owner && o2 != owner {
        assert NeedsRow(s.owners, o1, i1, id) && NeedsRow(s.owners, o2, i2, id);
      }
    }
  }

  /** A statement only touches a row that its owner has locked. */
  lemma SettleKeepsOthers(c: Config, s: System, owner: string, id: Uuid, how: Settlement, o: string)
    requires Inv(c, s) && o in s.owners && o != owner
    ensures LeasesOk(c, Settle(s.rows, id, owner, how), o, s.owners[o])
  {
    LeasesTransfer(c, s.rows, Settle(s.rows, id, owner, how), o, s.owners[o]);
  }

  lemma SettleRowKeeps(c: Config, s: System, owner: string, lane: nat, how: Settlement, executed: bool, ok: bool)
    requires Inv(c, s) && Enabled(c, s, SettleRow(owner, lane, how, executed, ok))
    ensures Inv(c, Next(c, s, SettleRow(owner, lane, how, executed, ok)))
  {
    var t, a := Next(c, s, SettleRow(owner, lane, how, executed, ok)), s.owners[owner];
    FinishKeepsTimes(c, a, lane, ok, s.now);
    SettleKeepsOwn(c, s.rows, t.rows, owner, a, lane, ok, s.now);
    forall o | o in t.owners && o != owner ensures LeasesOk(c, t.rows, o, t.owners[o]) {
      if executed {
        SettleKeepsOthers(c, s, owner, a.ids[a.pool.lanes[lane].index], how, o);
      }
    }
    StaysExclusive(s.owners, owner, FinishItem(a, lane, ok, s.now));
  }

  lemma SettleKeepsOwn(c: Config, rows: Table, rows': Table, o: string, a: Activity, lane: nat, ok: bool, now: Time)
    requires a.Working? && Pool.CanFinish(a.pool, lane) && a.pool.lanes[lane].index < |a.phases| == |a.ids|
    requires LeasesOk(c, rows, o, a)
    requires forall id :: id in rows && id != a.ids[a.pool.lanes[lane].index] ==> id in rows' && rows'[id] == rows[id]
    ensures LeasesOk(c, rows', o, FinishItem(a, lane, ok, now))
  {
    LeasesTransfer(c, rows, rows', o, FinishItem(a, lane, ok, now));
  }

  lemma TickKeeps(c: Config, s: System, to: Time)
    requires Inv(c, s) && Enabled(c, s, Tick(to))
    ensures Inv(c, Next(c, s, Tick(to)))
  {
    forall o | o in s.owners ensures TimesOk(c, s.owners[o], to) {
      TickKeepsTimes(c, s.owners[o], s.now, to);
    }
  }

  lemma InsertKeeps(c: Config, s: System, row: Row)
    requires Inv(c, s) && Enabled(c, s, InsertRow(row))
    ensures Inv(c, Next(c, s, InsertRow(row)))
  {
    var t := Next(c, s, InsertRow(row));
    forall o | o in t.owners ensures LeasesOk(c, t.rows, o, t.owners[o]) {
      LeasesTransfer(c, s.rows, t.rows, o, s.owners[o]);
    }
  }

  /**
   * A late statement of an owner that needs the row again can only end the row for good: MarkPublished
   * and MarkFailed leave it to nobody, and a Release is excluded.
   */
  lemma LateKeepsOwn(c: Config, s: System, l: Late)
    requires Inv(c, s) && l.owner in s.owners && !Reclaimed(s, l)
    ensures LeasesOk(c, Settle(s.rows, l.id, l.owner, l.how), l.owner, s.owners[l.owner])
  {
    var a, rows' := s.owners[l.owner], Settle(s.rows, l.id, l.owner, l.how);
    forall i | 0 <= i < |a.ids| && NeedsLease(a, i)
      ensures Guarded(c, rows', a.ids[i], l.owner, a.claimedAt)
    {
      assert Guarded(c, s.rows, a.ids[i], l.owner, a.claimedAt);
      assert a.ids[i] == l.id ==> NeedsRow(s.owners, l.owner, i, l.id);
    }
  }

  lemma ArriveKeeps(c: Config, s: System, l: Late)
    requires Inv(c, s) && Enabled(c, s, Arrive(l)) && !c.lateReleases
    ensures Inv(c, Next(c, s, Arrive(l)))
  {
    var t := Next(c, s, Arrive(l));
    forall o | o in t.owners ensures LeasesOk(c, t.rows, o, t.owners[o]) {
      if o == l.owner {
        LateKeepsOwn(c, s, l);
      } else {
        SettleKeepsOthers(c, s, l.owner, l.id, l.how, o);
      }
    }
  }

  /** An owner that needs no more rows than before. */
  lemma StaysExclusive(owners: map<string, Activity>, o: string, b: Activity)
    requires Exclusive(owners) && o in owners && NeedsNoMore(owners[o], b)
    ensures Exclusive(owners[o := b])
  {
    var owners' := owners[o := b];
    forall o1, i1: nat, o2, i2: nat, id | NeedsRow(owners', o1, i1, id) && NeedsRow(owners', o2, i2, id)
      ensures o1 == o2 && i1 == i2
    {
      assert NeedsRow(owners, o1, i1, id) && NeedsRow(owners, o2, i2, id);
    }
  }

  lemma CancelKeeps(c: Config, s: System, owner: string)
    requires Inv(c, s) && Enabled(c, s, Cancel(owner))
    ensures Inv(c, Next(c, s, Cancel(owner)))
  {
    CancelKeepsTimes(c, s.owners[owner], s.now);
    CancelKeepsLeases(c, s.rows, owner, s.owners[owner]);
    StaysExclusive(s.owners, owner, s.owners[owner].(pool := s.owners[owner].pool.(canceled := true)));
  }

  lemma CancelKeepsLeases(c: Config, rows: Table, o: string, a: Activity)
    requires a.Working? && LeasesOk(c, rows, o, a)
    ensures LeasesOk(c, rows, o, a.(pool := a.pool.(canceled := true)))
  {
    var b := a.(pool := a.pool.(canceled := true));
    assert forall i :: 0 <= i < |b.ids| && NeedsLease(b, i) ==> NeedsLease(a, i);
  }

  /** One owner goes on with its batch. */
  lemma ActivityKeeps(c: Config, s: System, owner: string, b: Activity)
    requires Inv(c, s) && owner in s.owners && TimesOk(c, b, s.now) && LeasesOk(c, s.rows, owner, b)
    requires NeedsNoMore(s.owners[owner], b)
    ensures Inv(c, s.(owners := s.owners[owner := b]))
  {
    StaysExclusive(s.owners, owner, b);
  }

  lemma StartPoolKeeps(c: Config, s: System, owner: string)
    requires Inv(c, s) && Enabled(c, s, StartPool(owner))
    ensures Inv(c, Next(c, s, StartPool(owner)))
  {
    StartKeeps(c, s.rows, owner, s.owners[owner], s.now);
    ActivityKeeps(c, s, owner, Next(c, s, StartPool(owner)).owners[owner]);
  }

  lemma TakeStepKeeps(c: Config, s: System, owner: string, lane: nat)
    requires Inv(c, s) && Enabled(c, s, Take(owner, lane))
    ensures Inv(c, Next(c, s, Take(owner, lane)))
  {
    TakeKeeps(c, s.rows, owner, s.owners[owner], lane, s.now);
    ActivityKeeps(c, s, owner, TakeItem(s.owners[owner], lane, s.now));
  }

  lemma PublishStepKeeps(c: Config, s: System, owner: string, item: nat)
    requires Inv(c, s) && Enabled(c, s, PublishEnds(owner, item))
    ensures Inv(c, Next(c, s, PublishEnds(owner, item)))
  {
    PublishEndsKeeps(c, s.rows, owner, s.owners[owner], item, s.now);
    ActivityKeeps(c, s, owner, Next(c, s, PublishEnds(owner, item)).owners[owner]);
  }

  lemma LeaveKeeps(c: Config, s: System, owner: string)
    requires Inv(c, s)
    ensures Inv(c, s.(owners := s.owners - {owner}))
  {
    var owners' := s.owners - {owner};
    forall o1, i1: nat, o2, i2: nat, id | NeedsRow(owners', o1, i1, id) && NeedsRow(owners', o2, i2, id)
      ensures o1 == o2 && i1 == i2
    {
      assert NeedsRow(s.owners, o1, i1, id) && NeedsRow(s.owners, o2, i2, id);
    }
  }

  lemma NextKeepsInv(c: Config, s: System, step: Step)
    requires EnoughLease(c) && !c.lateReleases && Inv(c, s)
    ensures Inv(c, Next(c, s, step))
  {
    if Enabled(c, s, step) {
      match step
      case Tick(to) => TickKeeps(c, s, to);
      case InsertRow(row) => InsertKeeps(c, s, row);
      case Claim(owner, chosen, skipped, replied) => ClaimKeeps(c, s, owner, chosen, skipped, replied);
      case SettleRow(owner, lane, how, executed, ok) => SettleRowKeeps(c, s, owner, lane, how, executed, ok);
      case Cancel(owner) => CancelKeeps(c, s, owner);
      case EndBatch(owner) => LeaveKeeps(c, s, owner);
      case Crash(owner) => LeaveKeeps(c, s, owner);
      case Arrive(l) => ArriveKeeps(c, s, l);
      case StartPool(owner) => StartPoolKeeps(c, s, owner);
      case Take(owner, lane) => TakeStepKeeps(c, s, owner, lane);
      case PublishEnds(owner, item) => PublishStepKeeps(c, s, owner, item);
    }
  }

  lemma {:induction false} RunKeepsInv(c: Config, begin: Time, steps: seq<Step>)
    requires EnoughLease(c) && !c.lateReleases
    ensures Inv(c, Run(c, Initial(begin), steps))
    decreases |steps|
  {
    if steps != [] {
      RunKeepsInv(c, begin, steps[..|steps| - 1]);
      NextKeepsInv(c, Run(c, Initial(begin), steps[..|steps| - 1]), steps[|steps| - 1]);
    }
  }

  // ---------- main results ----------

  predicate IsPublishing(s: System, owner: string, item: nat) {
    && IsWorking(s, owner) && item < |s.owners[owner].phases| && item < |s.owners[owner].ids|
    && s.owners[owner].phases[item].Publishing?
  }

  /**
   * Lease sufficiency. In every reachable state of any number of publishers, a publish that is under
   * way is covered by its owner's lease: the row is still locked by that owner and locked_until has
   * not passed. So every publish of a claimed row ends no later than its locked_until. The one exception
   * is a row that a late statement of the owner itself has set to PUBLISHED or FAILED meanwhile.
   */
  lemma PublishesAreLeased(c: Config, begin: Time, steps: seq<Step>, owner: string, item: nat)
    requires EnoughLease(c) && !c.lateReleases
    requires IsPublishing(Run(c, Initial(begin), steps), owner, item)
    ensures var s := Run(c, Initial(begin), steps);
            var id := s.owners[owner].ids[item];
            && id in s.rows
            && (|| Terminal(s.rows, id)
                || (&& s.rows[id].lockedBy == Some(owner)
                    && s.rows[id].lockedUntil.Some? && s.now <= s.rows[id].lockedUntil.value))
  {
    RunKeepsInv(c, begin, steps);
    var s := Run(c, Initial(begin), steps);
    LeaseIsLongEnough(c, s.owners[owner], item, s.now);
    assert Guarded(c, s.rows, s.owners[owner].ids[item], owner, s.owners[owner].claimedAt);
  }

  /** Publishes of one row never overlap in time, whoever performs them. */
  lemma PublishesNeverOverlap(c: Config, begin: Time, steps: seq<Step>, o1: string, i1: nat, o2: string, i2: nat)
    requires EnoughLease(c) && !c.lateReleases
    requires var s := Run(c, Initial(begin), steps);
             IsPublishing(s, o1, i1) && IsPublishing(s, o2, i2) && s.owners[o1].ids[i1] == s.owners[o2].ids[i2]
    ensures o1 == o2 && i1 == i2
  {
    RunKeepsInv(c, begin, steps);
    var s := Run(c, Initial(begin), steps);
    var id := s.owners[o1].ids[i1];
    assert NeedsRow(s.owners, o1, i1, id) && NeedsRow(s.owners, o2, i2, id);
  }
}
