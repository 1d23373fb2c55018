/**
 * The bounded worker pool (internal/workerpool/pool.go) as a machine of small timed steps. Every
 * interleaving of its goroutines is a sequence of steps; `pace` bounds how long one handler call
 * lasts, and time passes only while no idle worker has an item to take.
 */
module WorkerPool {
  import opened Prelude

  /** One element of `errorsByIndex`; Go's initial `nil` is `NoError`. */
  datatype Slot = NoError | HandlerError | PoolCanceled

  datatype Lane = Idle(free: Time) | Busy(index: nat, since: Time) | Exited(at: Time)

  /** History of one item. */
  datatype Fate = Waiting | Running(lane: nat) | Returned(ok: bool) | Skipped

  /** A handler may first wait until `ready`, and then takes at most `limit`. */
  datatype Pace = Pace(ready: Time, limit: nat)

  /** When a handler called at `since` has returned at the latest. */
  function ReturnBy(pace: Pace, since: Time): Time {
    Max(since, pace.ready) + pace.limit
  }

  datatype Pool = Pool(
    begin: Time, canceled: bool, next: nat, lanes: seq<Lane>, errors: seq<Slot>,
    fates: seq<Fate>, writes: seq<nat>, calls: seq<nat>, starts: seq<Time>)

  datatype Step = Hand(lane: nat) | Finish(lane: nat, ok: bool) | Exit(lane: nat) | Cancel | Tick(to: Time)

  datatype Timed = Timed(now: Time, pool: Pool)

  /** min(workers, max(1, len(items))) goroutines. */
  function LaneCount(workers: nat, n: nat): nat {
    Min(workers, Max(1, n))
  }

  function Start(begin: Time, workers: nat, n: nat): Pool {
    Pool(begin, false, 0, seq(LaneCount(workers, n), _ => Idle(begin)), seq(n, _ => NoError),
         seq(n, _ => Waiting), seq(n, _ => 0), seq(n, _ => 0), [])
  }

  // ---------- the steps ----------

  /** The sender hands the next item to an idle worker, which looks at the context first. */
  predicate CanHand(p: Pool, l: nat) {
    l < |p.lanes| && p.lanes[l].Idle? && p.next < |p.errors|
    && |p.fates| == |p.writes| == |p.calls| == |p.errors|
  }

  function DoHand(p: Pool, l: nat, now: Time): Pool
    requires CanHand(p, l)
  {
    if p.canceled then
      p.(next := p.next + 1, starts := p.starts + [now],
         lanes := p.lanes[l := Idle(now)],
         errors := p.errors[p.next := PoolCanceled],
         writes := p.writes[p.next := p.writes[p.next] + 1],
         fates := p.fates[p.next := Skipped])
    else
      p.(next := p.next + 1, starts := p.starts + [now],
         lanes := p.lanes[l := Busy(p.next, now)],
         calls := p.calls[p.next := p.calls[p.next] + 1],
         fates := p.fates[p.next := Running(l)])
  }

  /** A handler returns; after a cancellation it may still return either way. */
  predicate CanFinish(p: Pool, l: nat) {
    l < |p.lanes| && p.lanes[l].Busy? && p.lanes[l].index < |p.errors|
    && |p.fates| == |p.writes| == |p.calls| == |p.errors|
  }

  function DoFinish(p: Pool, l: nat, ok: bool, now: Time): Pool
    requires CanFinish(p, l)
  {
    var i := p.lanes[l].index;
    p.(lanes := p.lanes[l := Idle(now)],
       errors := p.errors[i := if ok then NoError else HandlerError],
       writes := p.writes[i := p.writes[i] + 1],
       fates := p.fates[i := Returned(ok)])
  }

  /** The channel is closed and drained, so an idle worker leaves its loop. */
  predicate CanExit(p: Pool, l: nat) {
    l < |p.lanes| && p.lanes[l].Idle? && p.next >= |p.errors|
  }

  function DoExit(p: Pool, l: nat): Pool
    requires CanExit(p, l)
  {
    p.(lanes := p.lanes[l := Exited(p.lanes[l].free)])
  }

  /** Handlers keep the pace, and no worker idles while an item waits. */
  predicate CanTick(pace: Pace, p: Pool, now: Time, to: Time) {
    && now <= to
    && (forall l :: 0 <= l < |p.lanes| && p.lanes[l].Busy? ==> to <= ReturnBy(pace, p.lanes[l].since))
    && (to > now && p.next < |p.errors| ==> forall l :: 0 <= l < |p.lanes| ==> !p.lanes[l].Idle?)
  }

  /** A step of a worker that cannot take it leaves the state as it is. */
  function Apply(t: Timed, step: Step): Timed {
    match step
    case Hand(l) => if CanHand(t.pool, l) then t.(pool := DoHand(t.pool, l, t.now)) else t
    case Finish(l, ok) => if CanFinish(t.pool, l) then t.(pool := DoFinish(t.pool, l, ok, t.now)) else t
    case Exit(l) => if CanExit(t.pool, l) then t.(pool := DoExit(t.pool, l)) else t
    case Cancel => t.(pool := t.pool.(canceled := true))
    case Tick(to) => t.(now := to)
  }

  /** And time passes only at the pace of the handlers. */
  function Next(pace: Pace, t: Timed, step: Step): Timed {
    if step.Tick? && !CanTick(pace, t.pool, t.now, step.to) then t else Apply(t, step)
  }

  function Run(pace: Pace, t: Timed, steps: seq<Step>): Timed {
    if steps == [] then t else Next(pace, Run(pace, t, steps[..|steps| - 1]), steps[|steps| - 1])
  }

  /** `wg.Wait()` returns. */
  predicate Finished(p: Pool) {
    p.next >= |p.errors| && forall l :: 0 <= l < |p.lanes| ==> p.lanes[l].Exited?
  }

  // ---------- slots: who wrote them and what they mean ----------

  predicate ItemOk(p: Pool, i: nat)
    requires i < |p.errors| == |p.fates| == |p.writes| == |p.calls|
  {
    match p.fates[i]
    case Waiting => i >= p.next && p.writes[i] == 0 && p.calls[i] == 0
    case Running(l) => i < p.next && p.writes[i] == 0 && p.calls[i] == 1
                       && l < |p.lanes| && p.lanes[l].Busy? && p.lanes[l].index == i
    case Returned(ok) => i < p.next && p.writes[i] == 1 && p.calls[i] == 1
                         && p.errors[i] == if ok then NoError else HandlerError
    case Skipped => i < p.next && p.writes[i] == 1 && p.calls[i] == 0 && p.errors[i] == PoolCanceled
  }

  ghost predicate SlotInv(p: Pool) {
    && |p.errors| == |p.fates| == |p.writes| == |p.calls|
    && p.next <= |p.errors| && |p.starts| == p.next
    && |p.lanes| > 0
    && (forall i :: 0 <= i < |p.errors| ==> ItemOk(p, i))
    && (forall l :: 0 <= l < |p.lanes| && p.lanes[l].Busy? ==>
          p.lanes[l].index < p.next && p.fates[p.lanes[l].index] == Running(l)
          && p.starts[p.lanes[l].index] == p.lanes[l].since)
    && (forall l :: 0 <= l < |p.lanes| && p.lanes[l].Exited? ==> p.next == |p.errors|)
  }

  lemma HandKeepsSlots(p: Pool, l: nat, now: Time)
    requires SlotInv(p) && CanHand(p, l)
    ensures SlotInv(DoHand(p, l, now))
  {
    var q := DoHand(p, l, now);
    forall i | 0 <= i < |q.errors| ensures ItemOk(q, i) {
      assert ItemOk(p, i);
    }
    assert ItemOk(p, p.next);
  }

  lemma FinishKeepsSlots(p: Pool, l: nat, ok: bool, now: Time)
    requires SlotInv(p) && CanFinish(p, l)
    ensures SlotInv(DoFinish(p, l, ok, now))
  {
    var q := DoFinish(p, l, ok, now);
    assert ItemOk(p, p.lanes[l].index);
    forall i | 0 <= i < |q.errors| ensures ItemOk(q, i) {
      assert ItemOk(p, i);
    }
  }

  lemma ExitKeepsSlots(p: Pool, l: nat)
    requires SlotInv(p) && CanExit(p, l)
    ensures SlotInv(DoExit(p, l))
  {
    var q := DoExit(p, l);
    forall i | 0 <= i < |q.errors| ensures ItemOk(q, i) {
      assert ItemOk(p, i);
    }
  }

  // ---------- time: the makespan of FIFO hand-off ----------

  /** When this worker will next be free, at the latest. */
  function Deadline(pace: Pace, lane: Lane): Time {
    match lane
    case Idle(free) => free
    case Busy(_, since) => ReturnBy(pace, since)
    case Exited(at) => at
  }

  /** How many workers may still be busy after `t`. */
  function CountLate(pace: Pace, lanes: seq<Lane>, t: Time): nat {
    if lanes == [] then 0
    else CountLate(pace, lanes[..|lanes| - 1], t) + if Deadline(pace, lanes[|lanes| - 1]) > t then 1 else 0
  }

  lemma {:induction false} SomeLaneInTime(pace: Pace, lanes: seq<Lane>, t: Time) returns (l: nat)
    requires CountLate(pace, lanes, t) < |lanes|
    ensures l < |lanes| && Deadline(pace, lanes[l]) <= t
  {
    if Deadline(pace, lanes[|lanes| - 1]) <= t {
      l := |lanes| - 1;
    } else {
      l := SomeLaneInTime(pace, lanes[..|lanes| - 1], t);
    }
  }

  lemma {:induction false} CountLateUpdate(pace: Pace, lanes: seq<Lane>, l: nat, lane: Lane, t: Time)
    requires l < |lanes|
    ensures CountLate(pace, lanes[l := lane], t)
            == CountLate(pace, lanes, t) - (if Deadline(pace, lanes[l]) > t then 1 else 0)
                                          + (if Deadline(pace, lane) > t then 1 else 0)
  {
    var last := |lanes| - 1;
    if l == last {
      assert lanes[l := lane][..last] == lanes[..last];
    } else {
      CountLateUpdate(pace, lanes[..last], l, lane, t);
      assert lanes[l := lane][..last] == lanes[..last][l := lane];
    }
  }

  lemma {:induction false} NoneLate(pace: Pace, lanes: seq<Lane>, t: Time)
    requires forall l :: 0 <= l < |lanes| ==> Deadline(pace, lanes[l]) <= t
    ensures CountLate(pace, lanes, t) == 0
  {
    if lanes != [] {
      NoneLate(pace, lanes[..|lanes| - 1], t);
    }
  }

  /** The instant at which the `round`-th round of items starts at the latest. */
  function RoundStart(begin: Time, pace: Pace, round: nat): Time {
    if round == 0 then begin else ReturnBy(pace, RoundStart(begin, pace, round - 1))
  }

  /** In closed form; with `ready == begin`, this is `begin + round * limit`. */
  function Latest(begin: Time, pace: Pace, round: nat): Time {
    if round == 0 then begin else Max(begin, pace.ready) + round * pace.limit
  }

  lemma {:induction false} RoundStartIs(begin: Time, pace: Pace, round: nat)
    ensures RoundStart(begin, pace, round) == Latest(begin, pace, round)
  {
    if round > 0 {
      RoundStartIs(begin, pace, round - 1);
      assert round * pace.limit == (round - 1) * pace.limit + pace.limit;
      assert (round - 1) * pace.limit >= 0;
    }
  }

  lemma {:induction false} RoundsAscend(begin: Time, pace: Pace, a: nat, b: nat)
    requires a <= b
    ensures RoundStart(begin, pace, a) <= RoundStart(begin, pace, b)
  {
    if a < b {
      RoundsAscend(begin, pace, a, b - 1);
    }
  }

  /** The round in which item `k` is handed out, `k / w`, and its place in it, `k % w`. */
  function RoundOf(k: nat, w: nat): nat
    requires w > 0
  {
    if k < w then 0 else 1 + RoundOf(k - w, w)
  }

  function PlaceOf(k: nat, w: nat): (r: nat)
    requires w > 0
    ensures r < w
  {
    if k < w then k else PlaceOf(k - w, w)
  }

  lemma {:induction false} RoundStep(k: nat, w: nat)
    requires w > 0
    ensures if PlaceOf(k, w) + 1 == w then RoundOf(k + 1, w) == RoundOf(k, w) + 1 && PlaceOf(k + 1, w) == 0
            else RoundOf(k + 1, w) == RoundOf(k, w) && PlaceOf(k + 1, w) == PlaceOf(k, w) + 1
  {
    if k >= w {
      RoundStep(k - w, w);
    }
  }

  lemma {:induction false} RoundsOrdered(a: nat, b: nat, w: nat)
    requires w > 0 && a <= b
    ensures RoundOf(a, w) <= RoundOf(b, w)
    decreases b
  {
    if b >= w && a >= w {
      RoundsOrdered(a - w, b - w, w);
    }
  }

  lemma {:induction false} LessTimes(a: int, b: int, w: int)
    requires a < b && w > 0
    ensures a * w + w <= b * w
    decreases b - a
  {
    if a + 1 < b {
      LessTimes(a, b - 1, w);
    }
    assert b * w == (b - 1) * w + w;
  }

  lemma DivisionIsUnique(a: int, w: int, q: int, r: int)
    requires w > 0 && 0 <= r < w && a == q * w + r
    ensures a / w == q && a % w == r
  {
    var q', r' := a / w, a % w;
    assert a == q' * w + r';
    if q > q' { LessTimes(q', q, w); }
    if q < q' { LessTimes(q, q', w); }
  }

  lemma {:induction false} RoundOfIs(k: nat, w: nat)
    requires w > 0
    ensures k == RoundOf(k, w) * w + PlaceOf(k, w)
    ensures RoundOf(k, w) == k / w && PlaceOf(k, w) == k % w
  {
    if k >= w {
      RoundOfIs(k - w, w);
      assert RoundOf(k, w) * w == RoundOf(k - w, w) * w + w;
    }
    DivisionIsUnique(k, w, RoundOf(k, w), PlaceOf(k, w));
  }

  /** With `next` items handed out: how many workers can be late, and by how much. */
  ghost predicate Packed(begin: Time, pace: Pace, next: nat, lanes: seq<Lane>) {
    && |lanes| > 0
    && var round, place := RoundOf(next, |lanes|), PlaceOf(next, |lanes|);
    && CountLate(pace, lanes, RoundStart(begin, pace, round)) <= place
    && forall l :: 0 <= l < |lanes| ==>
         Deadline(pace, lanes[l]) <= RoundStart(begin, pace, if place == 0 then round else round + 1)
  }

  ghost predicate TimeInv(pace: Pace, p: Pool, now: Time) {
    && Packed(p.begin, pace, p.next, p.lanes)
    && p.begin <= now
    && (forall l :: 0 <= l < |p.lanes| && p.lanes[l].Busy? ==> p.lanes[l].since <= now <= Deadline(pace, p.lanes[l]))
    && (forall l :: 0 <= l < |p.lanes| && p.lanes[l].Idle? ==> p.begin <= p.lanes[l].free <= now)
    && (p.next < |p.errors| ==> forall l :: 0 <= l < |p.lanes| ==>
          !p.lanes[l].Exited? && now <= Deadline(pace, p.lanes[l]))
  }

  /** Every item was handed out in the round it belongs to. */
  ghost predicate StartsInTime(pace: Pace, p: Pool) {
    && |p.lanes| > 0 && |p.starts| == p.next
    && forall k :: 0 <= k < p.next ==> p.starts[k] <= RoundStart(p.begin, pace, RoundOf(k, |p.lanes|))
  }

  /** The instant of a hand-off is within the current round. */
  lemma HandIsInTime(pace: Pace, p: Pool, now: Time)
    requires TimeInv(pace, p, now) && p.next < |p.errors|
    ensures now <= RoundStart(p.begin, pace, RoundOf(p.next, |p.lanes|))
  {
    var l := SomeLaneInTime(pace, p.lanes, RoundStart(p.begin, pace, RoundOf(p.next, |p.lanes|)));
  }

  /** Giving the next item to lane `l` keeps the packing, whether or not the handler is called. */
  lemma HandKeepsPacked(pace: Pace, p: Pool, l: nat, now: Time, lane: Lane)
    requires TimeInv(pace, p, now) && p.next < |p.errors| && l < |p.lanes|
    requires now <= Deadline(pace, lane) <= ReturnBy(pace, now)
    ensures Packed(p.begin, pace, p.next + 1, p.lanes[l := lane])
  {
    var w, round := |p.lanes|, RoundOf(p.next, |p.lanes|);
    var early, late := RoundStart(p.begin, pace, round), RoundStart(p.begin, pace, round + 1);
    RoundStep(p.next, w);
    HandIsInTime(pace, p, now);
    assert late == ReturnBy(pace, early);
    CountLateUpdate(pace, p.lanes, l, lane, early);
    NoneLate(pace, p.lanes[l := lane], late);
  }

  lemma HandKeepsTime(pace: Pace, p: Pool, l: nat, now: Time)
    requires TimeInv(pace, p, now) && CanHand(p, l)
    ensures TimeInv(pace, DoHand(p, l, now), now)
  {
    HandKeepsPacked(pace, p, l, now, DoHand(p, l, now).lanes[l]);
  }

  lemma HandKeepsStarts(pace: Pace, p: Pool, l: nat, now: Time)
    requires TimeInv(pace, p, now) && StartsInTime(pace, p) && CanHand(p, l)
    ensures StartsInTime(pace, DoHand(p, l, now))
  {
    HandIsInTime(pace, p, now);
  }

  /** A worker becoming free early, or leaving, only lowers its deadline. */
  lemma ReleaseKeepsPacked(pace: Pace, p: Pool, l: nat, lane: Lane)
    requires Packed(p.begin, pace, p.next, p.lanes) && l < |p.lanes|
    requires Deadline(pace, lane) <= Deadline(pace, p.lanes[l])
    ensures Packed(p.begin, pace, p.next, p.lanes[l := lane])
  {
    CountLateUpdate(pace, p.lanes, l, lane, RoundStart(p.begin, pace, RoundOf(p.next, |p.lanes|)));
  }

  lemma FinishKeepsTime(pace: Pace, p: Pool, l: nat, ok: bool, now: Time)
    requires TimeInv(pace, p, now) && CanFinish(p, l)
    ensures TimeInv(pace, DoFinish(p, l, ok, now), now)
  {
    ReleaseKeepsPacked(pace, p, l, Idle(now));
  }

  lemma ExitKeepsTime(pace: Pace, p: Pool, l: nat, now: Time)
    requires TimeInv(pace, p, now) && CanExit(p, l)
    ensures TimeInv(pace, DoExit(p, l), now)
  {
    ReleaseKeepsPacked(pace, p, l, Exited(p.lanes[l].free));
  }

  lemma StartInv(begin: Time, pace: Pace, workers: nat, n: nat)
    requires workers > 0
    ensures Inv(pace, Timed(begin, Start(begin, workers, n)))
  {
    var p := Start(begin, workers, n);
    assert RoundStart(begin, pace, 0) == begin;
    NoneLate(pace, p.lanes, begin);
  }

  ghost predicate Inv(pace: Pace, t: Timed) {
    SlotInv(t.pool) && TimeInv(pace, t.pool, t.now) && StartsInTime(pace, t.pool)
  }

  /** The parts of a pool that never change. */
  predicate SameJob(p: Pool, q: Pool) {
    q.begin == p.begin && |q.lanes| == |p.lanes| && |q.errors| == |p.errors|
  }

  lemma HandKeeps(pace: Pace, t: Timed, l: nat)
    requires Inv(pace, t) && CanHand(t.pool, l)
    ensures Inv(pace, t.(pool := DoHand(t.pool, l, t.now))) && SameJob(t.pool, DoHand(t.pool, l, t.now))
  {
    HandKeepsSlots(t.pool, l, t.now);
    HandKeepsTime(pace, t.pool, l, t.now);
    HandKeepsStarts(pace, t.pool, l, t.now);
  }

  lemma FinishKeeps(pace: Pace, t: Timed, l: nat, ok: bool)
    requires Inv(pace, t) && CanFinish(t.pool, l)
    ensures Inv(pace, t.(pool := DoFinish(t.pool, l, ok, t.now))) && SameJob(t.pool, DoFinish(t.pool, l, ok, t.now))
  {
    FinishKeepsSlots(t.pool, l, ok, t.now);
    FinishKeepsTime(pace, t.pool, l, ok, t.now);
  }

  lemma ExitKeeps(pace: Pace, t: Timed, l: nat)
    requires Inv(pace, t) && CanExit(t.pool, l)
    ensures Inv(pace, t.(pool := DoExit(t.pool, l))) && SameJob(t.pool, DoExit(t.pool, l))
  {
    ExitKeepsSlots(t.pool, l);
    ExitKeepsTime(pace, t.pool, l, t.now);
  }

  lemma NextKeepsInv(pace: Pace, t: Timed, step: Step)
    requires Inv(pace, t)
    ensures Inv(pace, Next(pace, t, step)) && SameJob(t.pool, Next(pace, t, step).pool)
  {
    match step
    case Hand(l) => if CanHand(t.pool, l) { HandKeeps(pace, t, l); }
    case Finish(l, ok) => if CanFinish(t.pool, l) { FinishKeeps(pace, t, l, ok); }
    case Exit(l) => if CanExit(t.pool, l) { ExitKeeps(pace, t, l); }
    case Cancel => CancelKeepsSlots(t.pool);
    case Tick(to) =>
  }

  lemma CancelKeepsSlots(p: Pool)
    requires SlotInv(p)
    ensures SlotInv(p.(canceled := true))
  {
    var q := p.(canceled := true);
    forall i | 0 <= i < |q.errors| ensures ItemOk(q, i) {
      assert ItemOk(p, i);
    }
  }

  function Begun(begin: Time, workers: nat, n: nat): Timed {
    Timed(begin, Start(begin, workers, n))
  }

  lemma {:induction false} RunKeepsInv(begin: Time, pace: Pace, workers: nat, n: nat, steps: seq<Step>)
    requires workers > 0
    ensures Inv(pace, Run(pace, Begun(begin, workers, n), steps))
    ensures SameJob(Start(begin, workers, n), Run(pace, Begun(begin, workers, n), steps).pool)
    decreases |steps|
  {
    if steps == [] {
      StartInv(begin, pace, workers, n);
    } else {
      RunKeepsInv(begin, pace, workers, n, steps[..|steps| - 1]);
      NextKeepsInv(pace, Run(pace, Begun(begin, workers, n), steps[..|steps| - 1]), steps[|steps| - 1]);
    }
  }

  // ---------- main results, for every schedule ----------

  /** min(workers, ...) goroutines start round `k / workers` exactly like `workers` would. */
  lemma LaneRounds(workers: nat, n: nat, k: nat)
    requires workers > 0
    ensures k < n ==> RoundOf(k, LaneCount(workers, n)) == k / workers
    ensures n > 0 ==> Rounds(n, LaneCount(workers, n)) == Rounds(n, workers)
  {
    var w := LaneCount(workers, n);
    RoundOfIs(k, w);
    if k < n {
      RoundOfIs(k, workers);
    }
    if 0 < n < workers {
      DivisionIsUnique(n + n - 1, n, 1, n - 1);
      DivisionIsUnique(n + workers - 1, workers, 1, n - 1);
    }
  }

  /** `Rounds(n, w)` is the number of the round after the last item's. */
  lemma LastRound(n: nat, k: nat, w: nat)
    requires w > 0 && k < n
    ensures RoundOf(k, w) + 1 <= Rounds(n, w)
  {
    RoundsOrdered(k, n - 1, w);
    RoundsAre(n, w);
  }

  lemma StartsInRound(begin: Time, pace: Pace, workers: nat, n: nat, steps: seq<Step>, k: nat)
    requires workers > 0 && k < Run(pace, Begun(begin, workers, n), steps).pool.next
    ensures var p := Run(pace, Begun(begin, workers, n), steps).pool;
            k < |p.starts| && p.starts[k] <= Latest(begin, pace, k / workers)
  {
    RunKeepsInv(begin, pace, workers, n, steps);
    LaneRounds(workers, n, k);
    RoundStartIs(begin, pace, k / workers);
  }

  predicate Unfinished(p: Pool, i: nat)
    requires i < |p.fates|
  {
    p.fates[i].Waiting? || p.fates[i].Running?
  }

  lemma UnfinishedIsInTime(pace: Pace, t: Timed, i: nat)
    requires Inv(pace, t) && i < |t.pool.errors|
    requires Unfinished(t.pool, i)
    ensures t.now <= RoundStart(t.pool.begin, pace, Rounds(|t.pool.errors|, |t.pool.lanes|))
  {
    var p := t.pool;
    var n, w := |p.errors|, |p.lanes|;
    assert ItemOk(p, i);
    if p.fates[i].Waiting? {
      HandIsInTime(pace, p, t.now);
      LastRound(n, p.next, w);
      RoundsAscend(p.begin, pace, RoundOf(p.next, w), Rounds(n, w));
    } else {
      LastRound(n, i, w);
      RoundsAscend(p.begin, pace, RoundOf(i, w) + 1, Rounds(n, w));
    }
  }

  lemma EndsInRounds(begin: Time, pace: Pace, workers: nat, n: nat, steps: seq<Step>)
    requires workers > 0
    ensures var t := Run(pace, Begun(begin, workers, n), steps);
            && |t.pool.fates| == n
            && (t.now > Latest(begin, pace, Rounds(n, workers)) ==>
                  forall i :: 0 <= i < n ==> !Unfinished(t.pool, i))
  {
    var t := Run(pace, Begun(begin, workers, n), steps);
    RunKeepsInv(begin, pace, workers, n, steps);
    if i: nat :| i < n && Unfinished(t.pool, i) {
      UnfinishedIsInTime(pace, t, i);
      LaneRounds(workers, n, 0);
      LastRound(n, i, workers);
      RoundStartIs(begin, pace, Rounds(n, workers));
    }
  }

  /** Exactly: the last item's round is the last one. */
  lemma RoundsAre(n: nat, w: nat)
    requires n > 0 && w > 0
    ensures Rounds(n, w) == RoundOf(n - 1, w) + 1
  {
    RoundOfIs(n - 1, w);
    DivisionIsUnique(n + w - 1, w, RoundOf(n - 1, w) + 1, PlaceOf(n - 1, w));
    assert (RoundOf(n - 1, w) + 1) * w == RoundOf(n - 1, w) * w + w;
  }

  /** The items that share a round with its first one. */
  lemma {:induction false} SameRound(k: nat, w: nat, i: nat)
    requires w > 0 && i < w && PlaceOf(k, w) == 0
    ensures RoundOf(k + i, w) == RoundOf(k, w) && PlaceOf(k + i, w) == i
  {
    if i > 0 {
      SameRound(k, w, i - 1);
      RoundStep(k + i - 1, w);
    }
  }

  lemma AtLeastOneRound(n: nat, w: nat)
    requires n > 0 && w > 0
    ensures Rounds(n, w) >= 1
  {
    LastRound(n, 0, w);
  }

  lemma QuotientsOrdered(a: nat, b: nat, w: nat)
    requires w > 0 && a <= b
    ensures 0 <= a / w <= b / w
  {
    RoundsOrdered(a, b, w);
    RoundOfIs(a, w);
    RoundOfIs(b, w);
  }

  lemma RoundsMonotone(n: nat, m: nat, w: nat)
    requires w > 0 && n <= m
    ensures Rounds(n, w) <= Rounds(m, w)
  {
    QuotientsOrdered(n + w - 1, m + w - 1, w);
  }

  /** The item that begins the given round. */
  function FirstOf(round: nat, m: nat): nat {
    if round == 0 then 0 else FirstOf(round - 1, m) + m
  }

  lemma {:induction false} FirstOfIs(round: nat, m: nat)
    ensures FirstOf(round, m) == round * m
  {
    if round > 0 {
      FirstOfIs(round - 1, m);
      assert round * m == (round - 1) * m + m;
    }
  }

  /** With `rounds` full rounds before it, the last round has between one and `m` items. */
  lemma LastRoundItems(n: nat, m: nat, rounds: nat)
    requires m > 0 && n > 0 && rounds + 1 == Rounds(n, m)
    ensures FirstOf(rounds, m) < n <= FirstOf(rounds, m) + m
  {
    var q, r := RoundOf(n - 1, m), PlaceOf(n - 1, m);
    RoundOfIs(n - 1, m);
    assert (q + 1) * m == q * m + m;
    DivisionIsUnique(n + m - 1, m, q + 1, r);
    FirstOfIs(rounds, m);
  }

  /**
   * Makespan. Whatever the handlers do at their pace: item `k` starts no later than its round, and once
   * the clock has passed `max(begin, ready) + ceil(n / workers) * limit` every item is finished.
   */
  lemma Makespan(begin: Time, pace: Pace, workers: nat, n: nat, steps: seq<Step>, k: nat)
    requires workers > 0
    ensures var t := Run(pace, Begun(begin, workers, n), steps);
            && (k < t.pool.next ==>
                  k < |t.pool.starts| && t.pool.starts[k] <= Latest(begin, pace, k / workers))
            && |t.pool.fates| == n
            && (t.now > Latest(begin, pace, Rounds(n, workers)) ==>
                  forall i :: 0 <= i < n ==> !Unfinished(t.pool, i))
  {
    if k < Run(pace, Begun(begin, workers, n), steps).pool.next {
      StartsInRound(begin, pace, workers, n, steps, k);
    }
    EndsInRounds(begin, pace, workers, n, steps);
  }

  /**
   * When the pool has finished, under every interleaving and cancellation: each slot was written
   * exactly once, no handler was called twice for an item, and a nil slot means precisely that the
   * handler ran on that item and returned nil.
   */
  lemma FinishedSlots(begin: Time, pace: Pace, workers: nat, n: nat, steps: seq<Step>)
    requires workers > 0
    requires Finished(Run(pace, Begun(begin, workers, n), steps).pool)
    ensures var p := Run(pace, Begun(begin, workers, n), steps).pool;
            && |p.errors| == |p.fates| == |p.writes| == |p.calls| == n
            && forall i :: 0 <= i < n ==>
              && p.writes[i] == 1 && p.calls[i] <= 1
              && (p.errors[i] == NoError <==> p.fates[i] == Returned(true) && p.calls[i] == 1)
              && (p.errors[i] == PoolCanceled <==> p.calls[i] == 0)
              && (Cancel !in steps ==> p.calls[i] == 1)
  {
    RunKeepsInv(begin, pace, workers, n, steps);
    NothingSkipped(begin, pace, workers, n, steps);
    var p := Run(pace, Begun(begin, workers, n), steps).pool;
    forall i | 0 <= i < n
      ensures p.writes[i] == 1 && p.calls[i] <= 1
      ensures p.errors[i] == NoError <==> p.fates[i] == Returned(true) && p.calls[i] == 1
      ensures p.errors[i] == PoolCanceled <==> p.calls[i] == 0
      ensures Cancel !in steps ==> p.calls[i] == 1
    {
      assert ItemOk(p, i);
    }
  }

  /** As long as the context lives, no item is skipped. */
  lemma {:induction false} NothingSkipped(begin: Time, pace: Pace, workers: nat, n: nat, steps: seq<Step>)
    requires workers > 0
    ensures var p := Run(pace, Begun(begin, workers, n), steps).pool;
            Cancel !in steps ==> !p.canceled && forall i :: 0 <= i < |p.fates| ==> !p.fates[i].Skipped?
    decreases |steps|
  {
    if steps != [] {
      assert steps[|steps| - 1] in steps;
      NothingSkipped(begin, pace, workers, n, steps[..|steps| - 1]);
    }
  }

  /** Once the context has ended, no handler is called any more, however the run goes on. */
  lemma {:induction false} CanceledCallsNobody(pace: Pace, t: Timed, steps: seq<Step>)
    requires t.pool.canceled
    ensures Run(pace, t, steps).pool.canceled && Run(pace, t, steps).pool.calls == t.pool.calls
    decreases |steps|
  {
    if steps != [] {
      CanceledCallsNobody(pace, t, steps[..|steps| - 1]);
    }
  }

  /**
   * At every moment at most one worker holds an item, and at most `workers` handlers are running; no
   * worker is started in vain.
   */
  lemma BoundedAndExclusive(begin: Time, pace: Pace, workers: nat, n: nat, steps: seq<Step>)
    requires workers > 0
    ensures var p := Run(pace, Begun(begin, workers, n), steps).pool;
            && |RunningItems(p)| <= |p.lanes| <= workers && |p.lanes| <= Max(1, n)
            && (|p.lanes| < workers ==> |p.lanes| >= n)
            && forall a, b :: 0 <= a < b < |p.lanes| && p.lanes[a].Busy? && p.lanes[b].Busy? ==>
                 p.lanes[a].index != p.lanes[b].index
  {
    RunKeepsInv(begin, pace, workers, n, steps);
    RunningAtMost(Run(pace, Begun(begin, workers, n), steps).pool.lanes);
  }

  /** The items whose handler is running now. */
  function RunningItems(p: Pool): set<nat> {
    set l | 0 <= l < |p.lanes| && p.lanes[l].Busy? :: p.lanes[l].index
  }

  lemma {:induction false} RunningAtMost(lanes: seq<Lane>)
    ensures |set l | 0 <= l < |lanes| && lanes[l].Busy? :: lanes[l].index| <= |lanes|
  {
    var all := set l | 0 <= l < |lanes| && lanes[l].Busy? :: lanes[l].index;
    if lanes == [] {
      assert all == {};
    } else {
      var last := |lanes| - 1;
      var front := lanes[..last];
      RunningAtMost(front);
      var some := set l | 0 <= l < |front| && front[l].Busy? :: front[l].index;
      assert forall l :: 0 <= l < last ==> front[l] == lanes[l];
      if lanes[last].Busy? {
        assert all == some + {lanes[last].index};
      } else {
        assert all == some;
      }
    }
  }

  // ---------- no deadlock, and termination ----------

  function Weight(lane: Lane): nat {
    match lane
    case Busy(_, _) => 2
    case Idle(_) => 1
    case Exited(_) => 0
  }

  function Weights(lanes: seq<Lane>): nat {
    if lanes == [] then 0 else Weights(lanes[..|lanes| - 1]) + Weight(lanes[|lanes| - 1])
  }

  /** Work left: strictly smaller after every hand-off, return and exit. */
  function Remaining(p: Pool): nat {
    Weights(p.lanes) + if p.next < |p.errors| then 3 * (|p.errors| - p.next) else 0
  }

  lemma {:induction false} WeightsUpdate(lanes: seq<Lane>, l: nat, lane: Lane)
    requires l < |lanes|
    ensures Weights(lanes[l := lane]) == Weights(lanes) - Weight(lanes[l]) + Weight(lane)
  {
    var last := |lanes| - 1;
    if l == last {
      assert lanes[l := lane][..last] == lanes[..last];
    } else {
      WeightsUpdate(lanes[..last], l, lane);
      assert lanes[l := lane][..last] == lanes[..last][l := lane];
    }
  }

  predicate Enabled(p: Pool, step: Step) {
    match step
    case Hand(l) => CanHand(p, l)
    case Finish(l, _) => CanFinish(p, l)
    case Exit(l) => CanExit(p, l)
    case Cancel => false
    case Tick(_) => false
  }

  /**
   * No deadlock: in every reachable state that is not finished some worker step is enabled, and each
   * enabled worker step uses up some of the remaining work, so every schedule reaches `Finished`.
   */
  lemma NoDeadlock(begin: Time, pace: Pace, workers: nat, n: nat, steps: seq<Step>)
    requires workers > 0
    ensures var t := Run(pace, Begun(begin, workers, n), steps);
            && (Finished(t.pool) || exists step :: Enabled(t.pool, step))
            && forall step :: Enabled(t.pool, step) ==> Remaining(Next(pace, t, step).pool) < Remaining(t.pool)
  {
    var t := Run(pace, Begun(begin, workers, n), steps);
    var p := t.pool;
    RunKeepsInv(begin, pace, workers, n, steps);
    if !Finished(p) {
      var l: nat :| l < |p.lanes| && (p.next < |p.errors| || !p.lanes[l].Exited?);
      assert Enabled(p, if p.lanes[l].Busy? then Finish(l, true) else if p.next < |p.errors| then Hand(l) else Exit(l));
    }
    forall step | Enabled(p, step) ensures Remaining(Next(pace, t, step).pool) < Remaining(p) {
      WeightsUpdate(p.lanes, step.lane, Next(pace, t, step).pool.lanes[step.lane]);
    }
  }
}
