/** Exactly when every dead letter has used up its retries: when the delay check never fires on an own record. */
module DeadLetters {
  import opened Prelude
  import opened Records
  import opened Pipeline
  import opened PipelineInvariant
  import opened PipelineSafety
  import opened FetchErrors
  import opened RetryRuns
  import Consumer

  /** Every dead letter comes after the last attempt. */
  ghost predicate RetriesUsedUp(c: Config, s: System) {
    forall p: Partition, i: nat ::
      p.topic == c.consumer.dlqTopic && i < |LogOf(s.logs, p)| ==>
        HeaderInt(LogOf(s.logs, p)[i], ATTEMPT) == Success(c.consumer.maxRetries + 1)
  }

  /** The copy of the last retry, screened at once: it is due later than the delay check tolerates. */
  lemma CopyIsScreenedOut(c: Config, s: System, p: Partition)
    requires ValidConfig(c) && BeginsWith(c, s, p, c.consumer.maxRetries - 1) && !SkewTolerated(c)
    ensures Consumer.Screen(c.consumer, NextCopy(c, s, p, c.consumer.maxRetries - 1), s.clock)
            == Consumer.ToDlq(c.consumer.maxRetries, "not_before exceeds configured retry delay")
  {
    CopyReads(c, s, p, c.consumer.maxRetries - 1);
  }

  /** Some run dead-letters a record before its last attempt has been made. */
  lemma DeadLetteredEarly(c: Config) returns (s: System)
    requires ValidConfig(c) && !SkewTolerated(c)
    ensures Reachable(c, s) && !RetriesUsedUp(c, s)
  {
    var last, reason := c.consumer.maxRetries, "not_before exceeds configured retry delay";
    var level := Climb(c, last - 1);
    var p, q, dlq := PartitionOf(c, last - 1), PartitionOf(c, last), Partition(c.consumer.dlqTopic, 0);
    var copy := NextCopy(c, level, p, last - 1);
    var letter := Consumer.DlqRecord(c.consumer, copy, last, reason);
    RetryOnce(c, level, p, last - 1, last);
    var t := level.(logs := Append(level.logs, q, copy));
    CopyIsScreenedOut(c, level, p);
    ReachPolling(c, t, q, 1);
    PollingIsHandling(t, q);
    HandlingMoves(c, t, q, Fetched, Screen(t.clock));
    HandlingPublishes(c, t, q, letter, 0);
    s := t.(logs := Append(t.logs, dlq, letter));
    RoutedReadsBack(copy, c.consumer.dlqTopic, last, reason, ZERO_TIME);
    assert LogOf(s.logs, dlq)[|LogOf(t.logs, dlq)|] == letter;
  }

  /** In any run, precisely when the last attempt's backoff and the skew are within the tolerance. */
  lemma RetriesUsedUpIff(c: Config)
    requires ValidConfig(c)
    ensures (forall s :: Reachable(c, s) ==> RetriesUsedUp(c, s)) <==> SkewTolerated(c)
  {
    if SkewTolerated(c) {
      forall s | Reachable(c, s) ensures RetriesUsedUp(c, s) {
        forall p: Partition, i: nat | p.topic == c.consumer.dlqTopic && i < |LogOf(s.logs, p)|
          ensures HeaderInt(LogOf(s.logs, p)[i], ATTEMPT) == Success(c.consumer.maxRetries + 1)
        {
          DeadLettersExhaustRetries(c, s, p, i);
        }
      }
    } else {
      var s := DeadLetteredEarly(c);
    }
  }
}
