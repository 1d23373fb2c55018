/** Who goes on reading a partition where, when a batch is committed or its worker is lost. */
module Handover {
  import opened Prelude
  import opened Pipeline

  lemma OneAfterAnother(c: Config, s: System, front: seq<Step>, last: Step)
    requires ValidConfig(c)
    ensures Run(c, s, front + [last]) == Next(c, Run(c, s, front), last)
    ensures Run(c, s, []) == s
  {
    assert (front + [last])[..|front|] == front;
  }

  /** The worker reads the partition, from this offset on, and has no batch in progress. */
  predicate Reads(s: System, w: string, p: Partition, offset: nat) {
    Free(s, w) && p in s.workers[w].position && s.workers[w].position[p] == offset
  }

  /**
   * A poll hands out exactly the next records of the partition, one slot each, and goes on behind them.
   */
  lemma PollHandsOutNext(c: Config, s: System, w: string, take: map<Partition, nat>, p: Partition, offset: nat)
    requires ValidConfig(c) && CanPoll(s, w, take) && Reads(s, w, p, offset)
    ensures var s' := Next(c, s, Poll(w, take));
            var n := if p in take then take[p] else 0;
            && HasBatch(s', w) && s'.workers[w].position[p] == offset + n
            && (forall i: nat :: Ref(p, i) in s'.workers[w].batch.value.slots <==> offset <= i < offset + n)
            && (forall ref :: ref in s'.workers[w].batch.value.slots ==>
                  s'.workers[w].batch.value.slots[ref] == Fetched)
            && (n > 0 <==> p in s'.workers[w].batch.value.upto)
            && (n > 0 ==> s'.workers[w].batch.value.upto[p] == s'.workers[w].position[p])
  {
  }

  /** A batch has a record; turns without one are no steps. */
  lemma PollIsNotEmpty(c: Config, s: System, w: string, take: map<Partition, nat>) returns (ref: Ref)
    requires ValidConfig(c) && CanPoll(s, w, take)
    ensures HasBatch(Next(c, s, Poll(w, take)), w) && ref in Next(c, s, Poll(w, take)).workers[w].batch.value.slots
  {
    var p :| p in take && take[p] > 0;
    ref := Ref(p, s.workers[w].position[p]);
    PollHandsOutNext(c, s, w, take, p, s.workers[w].position[p]);
  }

  lemma CrashRemoves(c: Config, s: System, w: string)
    requires ValidConfig(c) && w in s.workers
    ensures Next(c, s, CrashWorker(w)) == s.(workers := s.workers - {w})
  {
  }

  lemma AssignStarts(c: Config, s: System, v: string, p: Partition)
    requires ValidConfig(c) && CanAssign(c, s, v, p)
    ensures Reads(Next(c, s, Assign(v, p)), v, p, Committed(s.committed, p))
    ensures Next(c, s, Assign(v, p)).committed == s.committed
  {
  }

  lemma TakenOver(c: Config, s: System, w: string, v: string, p: Partition)
    requires ValidConfig(c) && w in s.workers && v != w && Free(s, v) && Consumed(c, p.topic)
    requires forall u :: u in s.workers && u != w ==> p !in s.workers[u].position
    ensures var s' := Next(c, Next(c, s, CrashWorker(w)), Assign(v, p));
            Reads(s', v, p, Committed(s.committed, p)) && s'.committed == s.committed
  {
    CrashRemoves(c, s, w);
    AssignStarts(c, s.(workers := s.workers - {w}), v, p);
  }

  /** Without a commit, whoever takes the partition over begins where the last commit ended. */
  lemma CrashStartsOver(c: Config, s: System, w: string, v: string, p: Partition)
    requires ValidConfig(c) && w in s.workers && v != w && Free(s, v) && Consumed(c, p.topic)
    requires forall u :: u in s.workers && u != w ==> p !in s.workers[u].position
    ensures Reads(Run(c, s, [CrashWorker(w), Assign(v, p)]), v, p, Committed(s.committed, p))
  {
    OneAfterAnother(c, s, [], CrashWorker(w));
    OneAfterAnother(c, s, [CrashWorker(w)], Assign(v, p));
    assert [] + [CrashWorker(w)] == [CrashWorker(w)];
    assert [CrashWorker(w)] + [Assign(v, p)] == [CrashWorker(w), Assign(v, p)];
    TakenOver(c, s, w, v, p);
  }

  lemma CommitMoves(c: Config, s: System, w: string)
    requires ValidConfig(c) && HasBatch(s, w) && CanCommit(s, w, s.workers[w].batch.value.upto.Keys, true)
    ensures var upto := s.workers[w].batch.value.upto;
            var s' := Next(c, s, Commit(w, upto.Keys, true));
            && (forall q :: q in upto ==> Committed(s'.committed, q) == upto[q])
            && (forall q :: q !in upto ==> Committed(s'.committed, q) == Committed(s.committed, q))
            && s'.workers == s.workers[w := s.workers[w].(batch := None)]
  {
  }

  /** After an acknowledged commit, whoever takes the partition over begins behind the batch. */
  lemma CommitHandsOver(c: Config, s: System, w: string, v: string, p: Partition)
    requires ValidConfig(c) && HasBatch(s, w) && p in s.workers[w].batch.value.upto && v != w && Free(s, v)
    requires CanCommit(s, w, s.workers[w].batch.value.upto.Keys, true) && Consumed(c, p.topic)
    requires forall u :: u in s.workers && u != w ==> p !in s.workers[u].position
    ensures var upto := s.workers[w].batch.value.upto;
            var s' := Run(c, s, [Commit(w, upto.Keys, true), CrashWorker(w), Assign(v, p)]);
            && Reads(s', v, p, upto[p])
            && (forall q :: q in upto ==> Committed(s'.committed, q) == upto[q])
            && (forall q :: q !in upto ==> Committed(s'.committed, q) == Committed(s.committed, q))
  {
    var commit := Commit(w, s.workers[w].batch.value.upto.Keys, true);
    OneAfterAnother(c, s, [], commit);
    OneAfterAnother(c, s, [commit], CrashWorker(w));
    OneAfterAnother(c, s, [commit, CrashWorker(w)], Assign(v, p));
    assert [] + [commit] == [commit] && [commit] + [CrashWorker(w)] == [commit, CrashWorker(w)];
    assert [commit, CrashWorker(w)] + [Assign(v, p)] == [commit, CrashWorker(w), Assign(v, p)];
    CommitMoves(c, s, w);
    TakenOver(c, Next(c, s, commit), w, v, p);
  }
}
