/**
 * The startup guard of cmd/order-worker/main.go. It budgets fifteen seconds per record and none for the
 * commit, where a turn can need twenty-five and ten, and its arithmetic can wrap around.
 */
module WorkerGuard {
  import opened Prelude
  import opened Consumer
  import opened Turns
  import Pool = WorkerPool

  /** What `run` computes: every operation on int64. */
  predicate GuardAccepts(c: Config)
    requires ValidConfig(c)
  {
    var rounds := Quotient(Wrap64(c.batchSize + c.workers - 1), c.workers);
    Wrap64(rounds * Wrap64(c.maxBackoff + c.timeout + 15 * SECOND)) < REBALANCE_TIMEOUT
  }

  function Budget(c: Config): int
    requires ValidConfig(c)
  {
    Rounds(c.batchSize, c.workers) * (c.maxBackoff + c.timeout + 15 * SECOND)
  }

  /** Nothing overflows. */
  predicate InRange(c: Config)
    requires ValidConfig(c)
  {
    c.batchSize + c.workers - 1 <= MAX_INT64 && Budget(c) <= MAX_INT64
  }

  lemma TimesAtLeast(r: int, least: int, d: int)
    requires r >= least && d >= 0
    ensures r * d >= least * d
  {
    assert (r - least) * d >= 0;
  }

  lemma GuardIsExact(c: Config)
    requires ValidConfig(c) && InRange(c)
    ensures GuardAccepts(c) <==> Budget(c) < REBALANCE_TIMEOUT
  {
    Pool.AtLeastOneRound(c.batchSize, c.workers);
    TimesAtLeast(Rounds(c.batchSize, c.workers), 1, c.maxBackoff + c.timeout + 15 * SECOND);
  }

  /** The time per round that the guard just lets pass. */
  function JustAccepted(rounds: nat): int
    requires rounds > 0
  {
    (REBALANCE_TIMEOUT - 1) / rounds
  }

  lemma JustAcceptedIs(rounds: nat)
    requires 1 <= rounds <= 19
    ensures var d := JustAccepted(rounds);
            && REBALANCE_TIMEOUT - 1 - rounds < rounds * d < REBALANCE_TIMEOUT
            && 15 * SECOND + 1 < d < REBALANCE_TIMEOUT
  {
    var d := JustAccepted(rounds);
    assert REBALANCE_TIMEOUT - 1 == rounds * d + (REBALANCE_TIMEOUT - 1) % rounds;
    if d <= 15 * SECOND + 1 {
      TimesAtLeast(15 * SECOND + 1, d, rounds);
    } else if d >= REBALANCE_TIMEOUT {
      TimesAtLeast(rounds, 1, d);
    }
  }

  /** For up to nineteen rounds there are durations that pass the guard with which a turn can be late. */
  lemma GuardFails(workers: int64, batchSize: int64, skew: nat) returns (c: Config)
    requires workers > 0 && batchSize > 0 && batchSize + workers - 1 <= MAX_INT64
    requires Rounds(batchSize, workers) <= 19
    ensures ValidConfig(c) && c.workers == workers && c.batchSize == batchSize && InRange(c)
    ensures GuardAccepts(c) && !TurnsFit(c, skew)
  {
    var rounds := Rounds(batchSize, workers);
    Pool.AtLeastOneRound(batchSize, workers);
    JustAcceptedIs(rounds);
    var d := JustAccepted(rounds);
    c := Config("", "retry", "dlq", workers, batchSize, 1, 1, d - 15 * SECOND - 1, 1);
    assert "retry"[0] != "dlq"[0];
    assert Budget(c) == rounds * d;
    GuardIsExact(c);
    assert rounds * (d + 10 * SECOND) == rounds * d + rounds * (10 * SECOND);
    TurnFitsIff(c, skew);
  }

  /**
   * Without overflow this happens for at most nineteen rounds: with twenty rounds of more than fifteen
   * seconds the guard accepts nothing.
   */
  lemma GuardFailsInRangeIff(workers: int64, batchSize: int64, skew: nat)
    requires workers > 0 && batchSize > 0 && batchSize + workers - 1 <= MAX_INT64
    ensures (exists c | ValidConfig(c) && c.workers == workers && c.batchSize == batchSize && InRange(c) ::
               GuardAccepts(c) && !TurnsFit(c, skew))
            <==> Rounds(batchSize, workers) <= 19
  {
    if Rounds(batchSize, workers) <= 19 {
      var c := GuardFails(workers, batchSize, skew);
    } else {
      forall c | ValidConfig(c) && c.workers == workers && c.batchSize == batchSize && InRange(c)
        ensures !GuardAccepts(c)
      {
        GuardIsExact(c);
        TimesAtLeast(Rounds(batchSize, workers), 20, c.maxBackoff + c.timeout + 15 * SECOND);
      }
    }
  }

  /** The guard protects the group, whatever the durations. */
  ghost predicate Protects(workers: int64, batchSize: int64, skew: nat)
    requires workers > 0 && batchSize > 0
  {
    forall c | ValidConfig(c) && c.workers == workers && c.batchSize == batchSize ::
      GuardAccepts(c) ==> TurnsFit(c, skew)
  }

  /** It does for no sizes at all: durations whose sum wraps around to zero always pass. */
  lemma GuardProtectsNoSizes(workers: int64, batchSize: int64, skew: nat)
    requires workers > 0 && batchSize > 0
    ensures !Protects(workers, batchSize, skew)
  {
    var c := Config("", "retry", "dlq", workers, batchSize, 1, 1, MAX_INT64, MAX_INT64 - 15 * SECOND + 2);
    assert "retry"[0] != "dlq"[0];
    assert c.maxBackoff + c.timeout + 15 * SECOND == 0x1_0000_0000_0000_0000;
    assert Wrap64(c.maxBackoff + c.timeout + 15 * SECOND) == 0;
    assert GuardAccepts(c);
    Pool.AtLeastOneRound(batchSize, workers);
    TimesAtLeast(Rounds(batchSize, workers), 1, RecordLimit(c));
    TurnFitsIff(c, skew);
  }

  /** For instance: four minutes of backoff, half a minute of work, one record at a time. */
  lemma GuardUndercounts(c: Config, skew: nat)
    requires ValidConfig(c) && c.workers == 1 && c.batchSize == 1
    requires c.maxBackoff == 4 * MINUTE && c.timeout == 30 * SECOND
    ensures GuardAccepts(c) && !TurnsFit(c, skew)
  {
    assert Rounds(1, 1) == 1;
    GuardIsExact(c);
    TurnFitsIff(c, skew);
  }

  /** And where the number of rounds overflows, the guard accepts any durations. */
  lemma GuardOverflows(c: Config, skew: nat)
    requires ValidConfig(c) && c.workers == MAX_INT64 && c.batchSize == 2
    requires c.maxBackoff + c.timeout + 15 * SECOND <= MAX_INT64
    ensures GuardAccepts(c) && (c.maxBackoff >= REBALANCE_TIMEOUT ==> !TurnsFit(c, skew))
  {
    Pool.DivisionIsUnique(2 + MAX_INT64 - 1, MAX_INT64, 1, 1);
    TurnFitsIff(c, skew);
  }

  /** With the default sizes and durations every turn is in time. */
  lemma DefaultsFit(c: Config, skew: nat)
    requires ValidConfig(c) && c.workers == 8 && c.batchSize == 16
    requires c.maxBackoff == MINUTE && c.timeout == 30 * SECOND
    ensures GuardAccepts(c) && TurnsFit(c, skew)
  {
    assert Rounds(16, 8) == 2;
    GuardIsExact(c);
    TurnFitsIff(c, skew);
  }
}
