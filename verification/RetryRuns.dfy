/**
 * Runs that retry one record again and again: it is polled, its check fails, a copy with the next attempt
 * is published, and the worker crashes before it commits.
 */
module RetryRuns {
  import opened Prelude
  import opened Records
  import opened Sample
  import opened Pipeline
  import opened PipelineInvariant
  import opened PipelineSafety
  import opened FetchErrors
  import Backoff
  import Consumer
  import Publisher

  /** The worker has just polled these records, in this order. */
  ghost predicate PolledAs(s: System, w: string, refs: seq<Ref>, records: seq<Record>) {
    && HasBatch(s, w) && |refs| == |records|
    && (forall i, j :: 0 <= i < j < |refs| ==> refs[i] != refs[j])
    && (forall ref :: ref in s.workers[w].batch.value.slots <==> ref in refs)
    && (forall k :: 0 <= k < |refs| ==>
          HasSlot(s, w, refs[k]) && SlotOf(s, w, refs[k]).Fetched? && RecordAt(s, refs[k]) == records[k])
  }

  ghost predicate JustPolled(s: System, records: seq<Record>) {
    exists w, refs :: PolledAs(s, w, refs, records)
  }

  // ---------- polling one partition ----------

  /** Between two rounds of polling: nobody polls, nothing is committed or processed. */
  ghost predicate Idle(c: Config, s: System)
    requires ValidConfig(c)
  {
    Reachable(c, s) && s.workers == map[] && s.committed == map[] && s.db.processed == {}
  }

  /** A worker that has just polled the first `n` records of the partition. */
  function Polling(s: System, p: Partition, n: nat): System {
    var position, take := map[p := 0], map[p := n];
    s.(workers := map["w" := Worker(Polled(position, take), Some(NewBatch(position, take)))])
  }

  lemma ReachOwning(c: Config, s: System, p: Partition)
    requires ValidConfig(c) && Idle(c, s) && Consumed(c, p.topic)
    ensures Reachable(c, s.(workers := map["w" := Worker(map[p := 0], None)]))
  {
    var joined := SetWorker(s, "w", Worker(map[], None));
    ReachableNext(c, s, Join("w"));
    ReachableNext(c, joined, Assign("w", p));
    assert map[][p := 0] == map[p := 0];
    assert DoAssign(c, joined, "w", p) == s.(workers := map["w" := Worker(map[p := 0], None)]);
  }

  lemma ReachPolling(c: Config, s: System, p: Partition, n: nat)
    requires ValidConfig(c) && Idle(c, s) && Consumed(c, p.topic) && 0 < n <= |LogOf(s.logs, p)|
    ensures Reachable(c, Polling(s, p, n))
  {
    var owning := s.(workers := map["w" := Worker(map[p := 0], None)]);
    ReachOwning(c, s, p);
    assert p in map[p := n] && map[p := n][p] > 0;
    ReachableNext(c, owning, Poll("w", map[p := n]));
    assert DoPoll(owning, "w", map[p := n]) == Polling(s, p, n);
  }

  lemma PolledSlots(s: System, p: Partition, n: nat)
    requires n <= |LogOf(s.logs, p)|
    ensures forall ref :: ref in Polling(s, p, n).workers["w"].batch.value.slots <==>
                            ref.partition == p && ref.offset < n
    ensures forall k: nat :: k < n ==>
              HasSlot(Polling(s, p, n), "w", Ref(p, k)) && SlotOf(Polling(s, p, n), "w", Ref(p, k)).Fetched?
  {
  }

  lemma PolledInOrder(s: System, p: Partition, n: nat)
    requires n <= |LogOf(s.logs, p)|
    ensures JustPolled(Polling(s, p, n), LogOf(s.logs, p)[..n])
  {
    var refs := seq(n, k requires 0 <= k < n => Ref(p, k));
    var t := Polling(s, p, n);
    PolledSlots(s, p, n);
    forall ref | ref in t.workers["w"].batch.value.slots ensures ref in refs {
      assert refs[ref.offset] == ref;
    }
    assert PolledAs(t, "w", refs, LogOf(s.logs, p)[..n]);
  }

  /** The worker with only the partition's first record in its batch, which has got as far as `pc`. */
  function Handling(s: System, p: Partition, pc: Pc): System {
    s.(workers := map["w" := Worker(map[p := 1], Some(Batch(map[p := 1], map[Ref(p, 0) := pc])))])
  }

  lemma PollingIsHandling(s: System, p: Partition)
    ensures Polling(s, p, 1) == Handling(s, p, Fetched)
  {
    var position, take := map[p := 0], map[p := 1];
    assert PolledRefs(position, take) == {Ref(p, 0)};
    assert Polled(position, take) == map[p := 1];
    assert NewBatch(position, take).upto == map[p := 1];
    assert NewBatch(position, take).slots == map[Ref(p, 0) := Fetched];
  }

  /** One quiet step of processRecord on it. */
  lemma HandlingMoves(c: Config, s: System, p: Partition, pc: Pc, step: SlotStep)
    requires ValidConfig(c) && LogOf(s.logs, p) != [] && Reachable(c, Handling(s, p, pc))
    requires SlotEnabled(c, Handling(s, p, pc), pc, step) && (step.Screen? || step.Wake? || step.CheckFailed?)
    ensures Reachable(c, Handling(s, p, SlotNext(c, Handling(s, p, pc), LogOf(s.logs, p)[0], pc, step)))
  {
    var t := Handling(s, p, pc);
    ReachableNext(c, t, Slot("w", Ref(p, 0), step));
    var next := SlotNext(c, t, LogOf(s.logs, p)[0], pc, step);
    assert map[Ref(p, 0) := pc][Ref(p, 0) := next] == map[Ref(p, 0) := next];
  }

  /** The worker crashes before it commits. */
  lemma HandlingCrashes(c: Config, s: System, p: Partition, pc: Pc)
    requires ValidConfig(c) && s.workers == map[] && Reachable(c, Handling(s, p, pc))
    ensures Reachable(c, s)
  {
    var t := Handling(s, p, pc);
    ReachableNext(c, t, CrashWorker("w"));
    assert DoCrashWorker(t, "w").workers == map[];
    assert DoCrashWorker(t, "w") == s;
  }

  /** Its copy is published. */
  lemma HandlingPublishes(c: Config, s: System, p: Partition, copy: Record, index: nat)
    requires ValidConfig(c) && LogOf(s.logs, p) != [] && Idle(c, s) && Reachable(c, Handling(s, p, Routing(copy)))
    ensures Idle(c, s.(logs := Append(s.logs, Partition(copy.topic, index), copy)))
  {
    var t, step := Handling(s, p, Routing(copy)), Publish(index, true, true);
    var u := s.(logs := Append(s.logs, Partition(copy.topic, index), copy));
    ReachableNext(c, t, Slot("w", Ref(p, 0), step));
    assert map[Ref(p, 0) := Routing(copy)][Ref(p, 0) := Handled] == map[Ref(p, 0) := Handled];
    assert DoSlot(c, t, "w", Ref(p, 0), step) == Handling(u, p, Handled);
    HandlingCrashes(c, u, p, Handled);
  }

  /** The partition begins with the event's record, at this attempt, and it is due for the delay check too. */
  ghost predicate BeginsWith(c: Config, s: System, p: Partition, attempt: nat) {
    && Consumed(c, p.topic) && LogOf(s.logs, p) != [] && s.clock > ZERO_TIME
    && var r := LogOf(s.logs, p)[0];
    && HeaderInt(r, ATTEMPT) == Success(attempt)
    && HeaderTime(r, NOT_BEFORE).Success? && HeaderTime(r, NOT_BEFORE).value <= s.clock
    && HeaderTime(r, NOT_BEFORE).value <= s.clock + Consumer.Tolerance(c.consumer)
    && Consumer.Decode(r) == Consumer.Genuine(EnvelopeWith(1, 2))
  }

  /** The copy of it that a failed check makes, on a clock that is ahead as far as it may be. */
  function NextCopy(c: Config, s: System, p: Partition, attempt: nat): Record
    requires ValidConfig(c) && LogOf(s.logs, p) != []
  {
    Consumer.RetryRecord(c.consumer, LogOf(s.logs, p)[0], attempt, "", s.clock + c.skew)
  }

  /** What the copy reads, and when it is due. */
  lemma CopyReads(c: Config, s: System, p: Partition, attempt: nat)
    requires ValidConfig(c) && BeginsWith(c, s, p, attempt) && attempt < c.consumer.maxRetries
    ensures var copy := NextCopy(c, s, p, attempt);
            && copy.topic == c.consumer.retryTopic && HeaderInt(copy, ATTEMPT) == Success(attempt + 1)
            && HeaderTime(copy, NOT_BEFORE) == Success(s.clock + c.skew + DelayOf(c.consumer, attempt + 1))
            && Consumer.Decode(copy) == Consumer.Genuine(EnvelopeWith(1, 2))
  {
    Consumer.RetryRecordReadsBack(c.consumer, LogOf(s.logs, p)[0], attempt, "", s.clock + c.skew);
  }

  /** Its delay is over, so that it goes on to the check. */
  lemma ReachChecking(c: Config, s: System, p: Partition, attempt: nat)
    requires ValidConfig(c) && Idle(c, s) && BeginsWith(c, s, p, attempt) && attempt <= c.consumer.maxRetries
    ensures Reachable(c, Handling(s, p, Checking(attempt, EnvelopeWith(1, 2))))
  {
    var r := LogOf(s.logs, p)[0];
    var due := HeaderTime(r, NOT_BEFORE).value;
    ReachPolling(c, s, p, 1);
    PollingIsHandling(s, p);
    assert Consumer.Screen(c.consumer, r, s.clock) == Consumer.WaitFor(attempt, due);
    HandlingMoves(c, s, p, Fetched, Screen(s.clock));
    HandlingMoves(c, s, p, Waiting(attempt, due), Wake(s.clock));
  }

  /** One hop: the record is polled, its check fails, the copy is published, and the worker crashes. */
  lemma RetryOnce(c: Config, s: System, p: Partition, attempt: nat, index: nat)
    requires ValidConfig(c) && Idle(c, s) && BeginsWith(c, s, p, attempt) && attempt < c.consumer.maxRetries
    ensures var copy := NextCopy(c, s, p, attempt);
            Idle(c, s.(logs := Append(s.logs, Partition(c.consumer.retryTopic, index), copy)))
  {
    var copy := NextCopy(c, s, p, attempt);
    ReachChecking(c, s, p, attempt);
    HandlingMoves(c, s, p, Checking(attempt, EnvelopeWith(1, 2)), CheckFailed("", s.clock + c.skew));
    CopyReads(c, s, p, attempt);
    HandlingPublishes(c, s, p, copy, index);
  }

  /** The copy of attempt `a` goes to the retry partition `a`. */
  function PartitionOf(c: Config, attempt: nat): Partition {
    if attempt == 0 then CreatedPartition(c) else Partition(c.consumer.retryTopic, attempt)
  }

  /** The record has been retried `attempt` times, and the partitions of further attempts are empty. */
  ghost predicate Level(c: Config, s: System, attempt: nat)
    requires ValidConfig(c)
  {
    && Idle(c, s) && BeginsWith(c, s, PartitionOf(c, attempt), attempt)
    && forall a: nat :: a > attempt ==> LogOf(s.logs, PartitionOf(c, a)) == []
  }

  /** How long a record must have been due to pass a delay check whose tolerance is negative. */
  function Overdue(c: Config): nat {
    var tolerance: int := Consumer.Tolerance(c.consumer);
    Max(0, -tolerance)
  }

  lemma FirstLevel(c: Config) returns (s: System)
    requires ValidConfig(c)
    ensures Level(c, s, 0)
  {
    s := FirstSettled(c);
    CreateBuilds(1, 2);
    Publisher.PublishedIsUnrouted(c.topics, ClaimedWith(1, 2));
    assert LogOf(s.logs, CreatedPartition(c))[0] == RecordWith(c, 1, 2);
  }

  /** The state with the next copy, once it is due. */
  function WithNext(c: Config, s: System, attempt: nat): System
    requires ValidConfig(c) && LogOf(s.logs, PartitionOf(c, attempt)) != []
  {
    var copy := NextCopy(c, s, PartitionOf(c, attempt), attempt);
    s.(logs := Append(s.logs, PartitionOf(c, attempt + 1), copy),
       clock := s.clock + c.skew + DelayOf(c.consumer, attempt + 1) + Overdue(c))
  }

  lemma NextCopyIsDue(c: Config, s: System, attempt: nat)
    requires ValidConfig(c) && Level(c, s, attempt) && attempt < c.consumer.maxRetries
    ensures BeginsWith(c, WithNext(c, s, attempt), PartitionOf(c, attempt + 1), attempt + 1)
  {
    CopyReads(c, s, PartitionOf(c, attempt), attempt);
    assert LogOf(WithNext(c, s, attempt).logs, PartitionOf(c, attempt + 1))
           == [NextCopy(c, s, PartitionOf(c, attempt), attempt)];
  }

  lemma NextLevel(c: Config, s: System, attempt: nat)
    requires ValidConfig(c) && Level(c, s, attempt) && attempt < c.consumer.maxRetries
    ensures Level(c, WithNext(c, s, attempt), attempt + 1)
  {
    var copy := NextCopy(c, s, PartitionOf(c, attempt), attempt);
    var t := s.(logs := Append(s.logs, PartitionOf(c, attempt + 1), copy));
    RetryOnce(c, s, PartitionOf(c, attempt), attempt, attempt + 1);
    ReachableNext(c, t, Tick(WithNext(c, s, attempt).clock));
    NextCopyIsDue(c, s, attempt);
  }

  lemma {:induction false} Climb(c: Config, attempt: nat) returns (s: System)
    requires ValidConfig(c) && attempt <= c.consumer.maxRetries
    ensures Level(c, s, attempt)
  {
    if attempt == 0 {
      s := FirstLevel(c);
    } else {
      var before := Climb(c, attempt - 1);
      NextLevel(c, before, attempt - 1);
      s := WithNext(c, before, attempt - 1);
    }
  }

  /** With `n` copies of the last retry in its own partition, all made at the same moment. */
  function WithCopies(c: Config, s: System, n: nat): System
    requires ValidConfig(c) && LogOf(s.logs, PartitionOf(c, c.consumer.maxRetries - 1)) != []
  {
    var last := c.consumer.maxRetries;
    var copy := NextCopy(c, s, PartitionOf(c, last - 1), last - 1);
    if n == 0 then s else s.(logs := s.logs[PartitionOf(c, last) := seq(n, _ => copy)])
  }

  lemma OneMoreCopy(c: Config, s: System, n: nat)
    requires ValidConfig(c) && n > 0 && LogOf(s.logs, PartitionOf(c, c.consumer.maxRetries)) == []
    requires LogOf(s.logs, PartitionOf(c, c.consumer.maxRetries - 1)) != []
    ensures var last, before := c.consumer.maxRetries, WithCopies(c, s, n - 1);
            var p, q := PartitionOf(c, last - 1), PartitionOf(c, last);
            && before == s.(logs := before.logs) && LogOf(before.logs, p) == LogOf(s.logs, p)
            && WithCopies(c, s, n) == s.(logs := Append(before.logs, q, NextCopy(c, s, p, last - 1)))
  {
    var last, before := c.consumer.maxRetries, WithCopies(c, s, n - 1);
    var p, q := PartitionOf(c, last - 1), PartitionOf(c, last);
    var copy := NextCopy(c, s, p, last - 1);
    assert p != q;
    assert LogOf(before.logs, q) == seq(n - 1, _ => copy);
    assert seq(n - 1, _ => copy) + [copy] == seq(n, _ => copy);
  }

  /** The same record can be polled, retried and abandoned any number of times. */
  lemma {:induction false} CopiesMade(c: Config, s: System, n: nat)
    requires ValidConfig(c) && Idle(c, s) && LogOf(s.logs, PartitionOf(c, c.consumer.maxRetries)) == []
    requires BeginsWith(c, s, PartitionOf(c, c.consumer.maxRetries - 1), c.consumer.maxRetries - 1)
    ensures Idle(c, WithCopies(c, s, n))
  {
    if n > 0 {
      var last := c.consumer.maxRetries;
      CopiesMade(c, s, n - 1);
      OneMoreCopy(c, s, n);
      RetryOnce(c, WithCopies(c, s, n - 1), PartitionOf(c, last - 1), last - 1, last);
    }
  }

  /** The longest wait of an own record. */
  function LongestWait(c: Config): int
    requires ValidConfig(c)
  {
    c.skew + Backoff.Delay(c.consumer.maxRetries, c.consumer.baseBackoff, c.consumer.maxBackoff)
  }

  lemma CopiesPolled(c: Config, level: System, n: nat) returns (s: System)
    requires ValidConfig(c) && Level(c, level, c.consumer.maxRetries - 1) && n > 0
    ensures Reachable(c, s) && s.clock == level.clock && s.db == level.db
    ensures var copy := NextCopy(c, level, PartitionOf(c, c.consumer.maxRetries - 1), c.consumer.maxRetries - 1);
            JustPolled(s, seq(n, _ => copy))
  {
    var last := c.consumer.maxRetries;
    var copy := NextCopy(c, level, PartitionOf(c, last - 1), last - 1);
    var t, q := WithCopies(c, level, n), PartitionOf(c, last);
    CopiesMade(c, level, n);
    assert LogOf(t.logs, q) == seq(n, _ => copy) == LogOf(t.logs, q)[..n];
    ReachPolling(c, t, q, n);
    PolledInOrder(t, q, n);
    s := Polling(t, q, n);
  }

  /** Some run of the pipeline polls a full batch of copies of the last retry, all of them just made. */
  lemma LateBatch(c: Config) returns (s: System, copy: Record)
    requires ValidConfig(c)
    ensures Reachable(c, s) && s.clock > ZERO_TIME && s.db.processed == {}
    ensures JustPolled(s, seq(c.consumer.batchSize, _ => copy))
    ensures HeaderInt(copy, ATTEMPT) == Success(c.consumer.maxRetries)
    ensures HeaderTime(copy, NOT_BEFORE) == Success(s.clock + LongestWait(c))
    ensures Consumer.Decode(copy) == Consumer.Genuine(EnvelopeWith(1, 2))
  {
    var last := c.consumer.maxRetries;
    var level := Climb(c, last - 1);
    copy := NextCopy(c, level, PartitionOf(c, last - 1), last - 1);
    CopyReads(c, level, PartitionOf(c, last - 1), last - 1);
    s := CopiesPolled(c, level, c.consumer.batchSize);
  }
}
