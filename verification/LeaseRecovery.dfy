/**
 * What a lease leaves to others: a row whose owner is gone is claimed by another one as soon as its lease is
 * over, and a settlement takes effect now, or whenever the statement arrives, but in one way.
 */
module LeaseRecovery {
  import opened Prelude
  import opened Leases
  import Outbox

  lemma ThreeSteps(c: Config, s: System, first: Step, second: Step, third: Step)
    ensures Run(c, s, [first, second]) == Next(c, Next(c, s, first), second)
    ensures Run(c, s, [first, second, third]) == Next(c, Next(c, Next(c, s, first), second), third)
  {
    assert [first, second, third][..2] == [first, second] && [first, second][..1] == [first] && [first][..0] == [];
    assert Run(c, s, [first]) == Next(c, Run(c, s, []), first);
  }

  /** Not before its lease is over, a row of a crashed owner can be claimed, and then belongs to the other owner. */
  lemma CrashedRowIsRecovered(c: Config, s: System, owner: string, i: nat, other: string, to: Time)
    requires c.batchSize > 0 && s.owners.Keys == {owner} && other != owner && s.now <= to
    requires LeasesOk(c, s.rows, owner, s.owners[owner]) && i < |s.owners[owner].ids| && NeedsLease(s.owners[owner], i)
    requires var a := s.owners[owner];
             Leased(c, s.rows, a.ids[i], owner, a.claimedAt) && s.rows[a.ids[i]].status == Outbox.RowProcessing
             && s.rows[a.ids[i]].nextAttemptAt <= to
    ensures var a := s.owners[owner];
            var claim := Claim(other, [a.ids[i]], s.rows.Keys - {a.ids[i]}, true);
            var s' := Run(c, s, [Crash(owner), Tick(to), claim]);
            if to <= a.claimedAt + Outbox.LeaseLength(c.lease) then s'.rows == s.rows && other !in s'.owners
            else && other in s'.owners && s'.owners[other] == Claiming(to, [a.ids[i]]) && owner !in s'.owners
                 && Leased(c, s'.rows, a.ids[i], other, to)
  {
    var a := s.owners[owner];
    var id := a.ids[i];
    var skipped := s.rows.Keys - {id};
    ThreeSteps(c, s, Crash(owner), Tick(to), Claim(other, [id], skipped, true));
    var s2 := Next(c, Next(c, s, Crash(owner)), Tick(to));
    assert s2 == System(to, s.rows, map[], s.late);
    assert id in [id];
    assert Outbox.ValidChoice(s2.rows, [id], skipped, c.batchSize, to)
           <==> to > a.claimedAt + Outbox.LeaseLength(c.lease);
  }

  /** An answered settlement is in the table; an unanswered one gets there when it arrives. */
  lemma SettlesNowOrLater(c: Config, s: System, owner: string, lane: nat, how: Outbox.Settlement, ok: bool)
    requires Enabled(c, s, SettleRow(owner, lane, how, true, ok))
    requires forall i, j :: 0 <= i < j < |s.owners[owner].ids| ==> s.owners[owner].ids[i] != s.owners[owner].ids[j]
    ensures var a := s.owners[owner];
            var id := a.ids[a.pool.lanes[lane].index];
            var unanswered := Next(c, s, SettleRow(owner, lane, how, false, ok));
            && Next(c, s, SettleRow(owner, lane, how, true, ok)).rows == Outbox.Settle(s.rows, id, owner, how)
            && unanswered.rows == s.rows
            && Next(c, unanswered, Arrive(Late(owner, id, how))).rows == Outbox.Settle(s.rows, id, owner, how)
  {
    var a := s.owners[owner];
    var k := a.pool.lanes[lane].index;
    var unanswered := Next(c, s, SettleRow(owner, lane, how, false, ok));
    assert unanswered.owners[owner].phases[k].Done?;
    assert !Reclaimed(unanswered, Late(owner, a.ids[k], how));
  }
}
