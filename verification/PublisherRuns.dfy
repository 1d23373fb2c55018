/** Claim and publishOne as steps of the machine. */
module PublisherRuns {
  import opened Prelude
  import opened Pipeline
  import opened PipelineData
  import opened PipelineSteps
  import Outbox
  import Publisher

  /** A claim that is answered gives its owner one task for each row, with what the row says, and leaves all others. */
  lemma ClaimGivesTasks(c: Config, s: System, owner: string, chosen: seq<Uuid>, skipped: set<Uuid>, limit: nat,
        lease: int64)
    requires ValidConfig(c) && Outbox.ValidChoice(s.db.outbox, chosen, skipped, limit, s.clock)
    ensures var s' := Next(c, s, Claim(owner, chosen, skipped, limit, lease, true));
            && Outbox.LockedFor(s.db.outbox, s'.db.outbox, chosen, owner, s.clock, lease)
            && s'.tasks.Keys == s.tasks.Keys + (set id | id in chosen :: TaskId(owner, id))
            && (forall id :: id in chosen ==>
                  var row := s.db.outbox[id];
                  s'.tasks[TaskId(owner, id)]
                  == ToPublish(Outbox.Event(row.id, row.aggregateId, row.eventType, row.payload, row.attempts + 1,
                                            row.createdAt)))
            && (forall t :: t in s.tasks && !(t.owner == owner && t.row in chosen) ==> s'.tasks[t] == s.tasks[t])
  {
    Outbox.ClaimLeases(s.db.outbox, chosen, skipped, owner, limit, s.clock, lease);
  }

  /** A publish, if the row is fit for it, and the settlement of the row. */
  function StepsOf(c: Config, id: TaskId, claimed: Outbox.Event, index: nat, env: Publisher.Env): seq<Step> {
    (if Publisher.Accepts(c.topics, claimed) then [PublishRow(id, index, env.appended, env.acknowledged)] else [])
    + [SettleRow(id, env.database != Refused, env.now + Publisher.PublishBackoff(claimed))]
  }

  lemma TwoSteps(c: Config, s: System, first: Step, second: Step)
    requires ValidConfig(c)
    ensures Run(c, s, [second]) == Next(c, s, second)
    ensures Run(c, s, [first, second]) == Next(c, Next(c, s, first), second)
  {
    assert [first, second][..1] == [first] && [first][..0] == [] && [second][..0] == [];
  }

  /** The machine is where the call leaves Kafka and the outbox, and the task is over. */
  predicate EndsAsCall(c: Config, s: System, s': System, id: TaskId, claimed: Outbox.Event, index: nat,
        env: Publisher.Env)
  {
    && s'.db == s.db.(outbox := s'.db.outbox) && s'.tasks == s.tasks - {id}
    && s'.db.outbox == (if env.database == Refused then s.db.outbox
                        else Outbox.Settle(s.db.outbox, id.row, id.owner,
                                           Publisher.SettlementOf(c.topics, claimed, env)))
    && s'.logs == if Publisher.Accepts(c.topics, claimed) && env.appended
                  then var record := Publisher.PublishedRecord(c.topics, claimed);
                       Append(s.logs, Partition(record.topic, index), record)
                  else s.logs
  }

  lemma SettleStep(c: Config, s: System, id: TaskId, executed: bool, next: Time)
    requires ValidConfig(c) && CanSettleRow(c, s, id)
    ensures Next(c, s, SettleRow(id, executed, next)) == DoSettleRow(c, s, id, executed, next)
  {
  }

  lemma PublishStep(c: Config, s: System, id: TaskId, index: nat, appended: bool, acknowledged: bool)
    requires ValidConfig(c) && CanPublishRow(c, s, id, appended, acknowledged)
    ensures Next(c, s, PublishRow(id, index, appended, acknowledged))
            == DoPublishRow(c, s, id, index, appended, acknowledged)
  {
  }

  lemma PublishThenSettle(c: Config, s: System, id: TaskId, index: nat, env: Publisher.Env)
    requires id in s.tasks && s.tasks[id].ToPublish? && env.databaseNow == s.clock
    requires Publisher.Accepts(c.topics, s.tasks[id].claimed) && (env.acknowledged ==> env.appended)
    ensures var claimed := s.tasks[id].claimed;
            var published := DoPublishRow(c, s, id, index, env.appended, env.acknowledged);
            && CanSettleRow(c, published, id)
            && EndsAsCall(c, s, DoSettleRow(c, published, id, env.database != Refused,
                                            env.now + Publisher.PublishBackoff(claimed)), id, claimed, index, env)
  {
    var published := DoPublishRow(c, s, id, index, env.appended, env.acknowledged);
    assert published.tasks - {id} == s.tasks - {id};
  }

  lemma SettleOnly(c: Config, s: System, id: TaskId, index: nat, env: Publisher.Env)
    requires id in s.tasks && s.tasks[id].ToPublish? && !Publisher.Accepts(c.topics, s.tasks[id].claimed)
    ensures var claimed := s.tasks[id].claimed;
            EndsAsCall(c, s, DoSettleRow(c, s, id, env.database != Refused,
                                         env.now + Publisher.PublishBackoff(claimed)), id, claimed, index, env)
  {
  }

  lemma RunOfBoth(c: Config, s: System, id: TaskId, index: nat, env: Publisher.Env, next: Time)
    requires ValidConfig(c) && CanPublishRow(c, s, id, env.appended, env.acknowledged)
    requires CanSettleRow(c, DoPublishRow(c, s, id, index, env.appended, env.acknowledged), id)
    ensures Run(c, s, [PublishRow(id, index, env.appended, env.acknowledged),
                       SettleRow(id, env.database != Refused, next)])
            == DoSettleRow(c, DoPublishRow(c, s, id, index, env.appended, env.acknowledged), id,
                           env.database != Refused, next)
  {
    TwoSteps(c, s, PublishRow(id, index, env.appended, env.acknowledged),
             SettleRow(id, env.database != Refused, next));
    PublishStep(c, s, id, index, env.appended, env.acknowledged);
    SettleStep(c, DoPublishRow(c, s, id, index, env.appended, env.acknowledged), id, env.database != Refused, next);
  }

  lemma RunOfOne(c: Config, s: System, id: TaskId, executed: bool, next: Time)
    requires ValidConfig(c) && CanSettleRow(c, s, id)
    ensures Run(c, s, [SettleRow(id, executed, next)]) == DoSettleRow(c, s, id, executed, next)
  {
    TwoSteps(c, s, SettleRow(id, executed, next), SettleRow(id, executed, next));
    SettleStep(c, s, id, executed, next);
  }

  lemma StepsEndAsCall(c: Config, s: System, id: TaskId, index: nat, env: Publisher.Env)
    requires ValidConfig(c) && id in s.tasks && s.tasks[id].ToPublish? && env.databaseNow == s.clock
    requires env.acknowledged ==> env.appended
    ensures var claimed := s.tasks[id].claimed;
            EndsAsCall(c, s, Run(c, s, StepsOf(c, id, claimed, index, env)), id, claimed, index, env)
  {
    var claimed := s.tasks[id].claimed;
    var next := env.now + Publisher.PublishBackoff(claimed);
    if Publisher.Accepts(c.topics, claimed) {
      PublishThenSettle(c, s, id, index, env);
      RunOfBoth(c, s, id, index, env, next);
      assert StepsOf(c, id, claimed, index, env)
             == [PublishRow(id, index, env.appended, env.acknowledged), SettleRow(id, env.database != Refused, next)];
    } else {
      SettleOnly(c, s, id, index, env);
      RunOfOne(c, s, id, env.database != Refused, next);
      assert StepsOf(c, id, claimed, index, env) == [SettleRow(id, env.database != Refused, next)];
    }
  }

  /**
   * Every call of publishOne on a claimed row is such a run. In particular a row that its owner holds is
   * published, put back for later, or failed for good.
   */
  lemma PublishOneIsARun(c: Config, s: System, id: TaskId, index: nat, env: Publisher.Env)
    requires ValidConfig(c) && SystemInv(c, s) && id in s.tasks && s.tasks[id].ToPublish?
    requires (env.acknowledged ==> env.appended) && env.databaseNow == s.clock
    ensures var claimed := s.tasks[id].claimed;
            var s' := Run(c, s, StepsOf(c, id, claimed, index, env));
            && EndsAsCall(c, s, s', id, claimed, index, env) && claimed.id == id.row
            && (env.database != Refused && Publisher.HeldBy(s.db.outbox, id.owner, id.row) ==>
                  Publisher.Treated(s.db.outbox, s'.db.outbox, claimed, env))
  {
    var claimed := s.tasks[id].claimed;
    assert RowGood(RealView(c).ok, s.db, id.row);
    StepsEndAsCall(c, s, id, index, env);
    Publisher.SettledIsTreated(c.topics, id.owner, s.db.outbox, claimed, env);
  }
}
