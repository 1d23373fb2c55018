/**
 * Any number of concurrent completion transactions, statement by statement, under the locks that
 * Postgres takes (internal/consumer/postgres.go): the unique key of processed_events from the INSERT
 * on, the order row from SELECT ... FOR UPDATE on, the primary key of the new outbox row from its
 * INSERT on. Writes become visible at commit.
 */
module Interleaving {
  import opened Prelude
  import opened Orders
  import opened Store
  import Outbox

  datatype Pc =
    | Begun
    | Inserted               // the key is inserted and locked
    | Duplicate              // ON CONFLICT DO NOTHING found a committed key
    | LockedPending | LockedStale
    | StatusUpdated
    | Emitted
    | Committed(result: CompleteResult)
    | RolledBack

  datatype Txn = Txn(call: Completion, newEventId: Uuid, now: Time, pc: Pc)

  /** One effect on the committed database, in commit order. */
  datatype Commit = Commit(txn: nat, call: Completion, newEventId: Uuid, now: Time, result: CompleteResult)

  datatype System = System(db: Database, txns: seq<Txn>, history: seq<Commit>)

  /** `Abort` is a statement error, a timeout, a crash, or a failed COMMIT. */
  datatype Step =
    | Begin(call: Completion, newEventId: Uuid, now: Time)
    | InsertKey(t: nat) | LockOrder(t: nat) | UpdateStatus(t: nat) | Emit(t: nat) | CommitTxn(t: nat) | Abort(t: nat)

  predicate HoldsKey(x: Txn) {
    x.pc.Inserted? || HoldsOrder(x)
  }

  predicate HoldsOrder(x: Txn) {
    x.pc.LockedPending? || x.pc.LockedStale? || x.pc.StatusUpdated? || x.pc.Emitted?
  }

  predicate Active(x: Txn) {
    !x.pc.Committed? && !x.pc.RolledBack?
  }

  /** A statement that needs a lock held by another transaction waits: it is not enabled. */
  predicate Enabled(s: System, step: Step) {
    match step
    case Begin(_, _, _) => true
    case InsertKey(t) => t < |s.txns| && s.txns[t].pc.Begun?
      && forall u :: 0 <= u < |s.txns| && HoldsKey(s.txns[u]) ==> KeyOf(s.txns[u].call) != KeyOf(s.txns[t].call)
    case LockOrder(t) => t < |s.txns| && s.txns[t].pc.Inserted?
      && forall u :: 0 <= u < |s.txns| && HoldsOrder(s.txns[u]) ==> s.txns[u].call.orderId != s.txns[t].call.orderId
    case UpdateStatus(t) => t < |s.txns| && s.txns[t].pc.LockedPending?
    case Emit(t) => t < |s.txns| && s.txns[t].pc.StatusUpdated?
      && forall u :: 0 <= u < |s.txns| && s.txns[u].pc.Emitted? ==> s.txns[u].newEventId != s.txns[t].newEventId
    case CommitTxn(t) => t < |s.txns| && (s.txns[t].pc.Duplicate? || s.txns[t].pc.LockedStale? || s.txns[t].pc.Emitted?)
    case Abort(t) => t < |s.txns| && Active(s.txns[t])
  }

  function At(s: System, t: nat, pc: Pc): System
    requires t < |s.txns|
  {
    s.(txns := s.txns[t := s.txns[t].(pc := pc)])
  }

  function AfterLock(db: Database, x: Txn): Pc {
    if x.call.orderId !in db.orders then RolledBack
    else if db.orders[x.call.orderId].status == Pending then LockedPending else LockedStale
  }

  /** The transaction's own writes, applied to the committed database. */
  function Written(db: Database, x: Txn): Database {
    match x.pc
    case LockedStale => db.(processed := db.processed + {KeyOf(x.call)})
    case Emitted =>
      if x.call.orderId in db.orders && StatusEvent(x.call, Pending, x.newEventId, x.now).Success? then
        db.(processed := db.processed + {KeyOf(x.call)},
            orders := db.orders[x.call.orderId := Updated(db.orders[x.call.orderId], x.call.status, x.now)],
            outbox := db.outbox[x.newEventId := Outbox.NewRow(StatusEvent(x.call, Pending, x.newEventId, x.now).value,
                                                              x.now)])
      else db
    case _ => db
  }

  function Next(s: System, step: Step): System {
    if !Enabled(s, step) then s
    else
      match step
      case Begin(call, newEventId, now) => s.(txns := s.txns + [Txn(call, newEventId, now, Begun)])
      case InsertKey(t) => At(s, t, if KeyOf(s.txns[t].call) in s.db.processed then Duplicate else Inserted)
      case LockOrder(t) => At(s, t, AfterLock(s.db, s.txns[t]))
      case UpdateStatus(t) =>
        At(s, t, if s.txns[t].call.orderId in s.db.orders
                    && s.txns[t].now >= s.db.orders[s.txns[t].call.orderId].createdAt
                 then StatusUpdated else RolledBack)
      case Emit(t) =>
        var x := s.txns[t];
        At(s, t, if StatusEvent(x.call, Pending, x.newEventId, x.now).Success? && x.newEventId !in s.db.outbox
                 then Emitted else RolledBack)
      case CommitTxn(t) =>
        var x := s.txns[t];
        var result := if x.pc.Emitted? then Applied else NotApplied;
        At(s, t, Committed(result)).(db := Written(s.db, x),
                                     history := s.history + [Commit(t, x.call, x.newEventId, x.now, result)])
      case Abort(t) => At(s, t, RolledBack)
  }

  function Run(s: System, steps: seq<Step>): System {
    if steps == [] then s else Next(Run(s, steps[..|steps| - 1]), steps[|steps| - 1])
  }

  // ---------- the serial order ----------

  /** The committed calls, one after the other, each as one atomic transaction. */
  function Serial(db: Database, history: seq<Commit>): Database {
    if history == [] then db
    else
      var c := history[|history| - 1];
      CompleteTx(Serial(db, history[..|history| - 1]), c.call, c.newEventId, c.now).0
  }

  /** The `k`-th call returned what the atomic transaction returns at its place in the serial order. */
  predicate ResultAgrees(db: Database, history: seq<Commit>, k: nat)
    requires k < |history|
  {
    CompleteTx(Serial(db, history[..k]), history[k].call, history[k].newEventId, history[k].now).1 == history[k].result
  }

  predicate ResultsAgree(db: Database, history: seq<Commit>) {
    forall k :: 0 <= k < |history| ==> ResultAgrees(db, history, k)
  }

  // ---------- what the locks guarantee ----------

  /** What a transaction has read is still true of the committed database. */
  predicate ViewOk(db: Database, x: Txn) {
    && (x.pc.Duplicate? ==> KeyOf(x.call) in db.processed)
    && (HoldsKey(x) ==> KeyOf(x.call) !in db.processed)
    && (HoldsOrder(x) ==> x.call.orderId in db.orders
                          && (x.pc.LockedStale? <==> db.orders[x.call.orderId].status != Pending))
    && (x.pc.StatusUpdated? || x.pc.Emitted? ==>
        x.call.orderId in db.orders && x.now >= db.orders[x.call.orderId].createdAt)
    && (x.pc.Emitted? ==> x.newEventId !in db.outbox && StatusEvent(x.call, Pending, x.newEventId, x.now).Success?)
  }

  /** Two transactions never hold the same lock. */
  predicate LocksDiffer(x: Txn, y: Txn) {
    && (HoldsKey(x) && HoldsKey(y) ==> KeyOf(x.call) != KeyOf(y.call))
    && (HoldsOrder(x) && HoldsOrder(y) ==> x.call.orderId != y.call.orderId)
    && (x.pc.Emitted? && y.pc.Emitted? ==> x.newEventId != y.newEventId)
  }

  ghost predicate LockInv(s: System) {
    && (forall t :: 0 <= t < |s.txns| ==> ViewOk(s.db, s.txns[t]))
    && (forall t, u :: 0 <= t < u < |s.txns| ==> LocksDiffer(s.txns[t], s.txns[u]))
  }

  /** Every committed transaction is in the history, once, and nothing else is. */
  ghost predicate Books(txns: seq<Txn>, history: seq<Commit>) {
    && (forall k :: 0 <= k < |history| ==>
          && history[k].txn < |txns|
          && txns[history[k].txn].pc == Committed(history[k].result)
          && txns[history[k].txn].call == history[k].call)
    && (forall k, l :: 0 <= k < l < |history| ==> history[k].txn != history[l].txn)
    && (forall t :: 0 <= t < |txns| && txns[t].pc.Committed? ==> InHistory(history, t))
  }

  predicate InHistory(history: seq<Commit>, t: nat) {
    exists k :: 0 <= k < |history| && history[k].txn == t
  }

  ghost predicate HistoryInv(db0: Database, s: System) {
    s.db == Serial(db0, s.history) && ResultsAgree(db0, s.history) && Books(s.txns, s.history)
  }

  /** The crux: at its commit, a transaction does exactly what the atomic one would do now. */
  lemma CommitIsAtomic(s: System, t: nat)
    requires LockInv(s) && Enabled(s, CommitTxn(t))
    ensures var x := s.txns[t];
            CompleteTx(s.db, x.call, x.newEventId, x.now)
            == (Written(s.db, x), if x.pc.Emitted? then Applied else NotApplied)
  {
    assert ViewOk(s.db, s.txns[t]);
  }

  /** Committing one transaction does not invalidate what another one has read. */
  lemma CommitKeepsView(db: Database, x: Txn, y: Txn)
    requires ViewOk(db, x) && ViewOk(db, y) && LocksDiffer(x, y)
    requires x.pc.Duplicate? || x.pc.LockedStale? || x.pc.Emitted?
    ensures ViewOk(Written(db, x), y)
  {
  }

  lemma LocksSymmetric(x: Txn, y: Txn)
    ensures LocksDiffer(x, y) <==> LocksDiffer(y, x)
  {
  }

  /** Moving one transaction keeps the locks apart if its new locks are free. */
  lemma MoveKeepsLocks(s: System, t: nat, pc: Pc)
    requires LockInv(s) && t < |s.txns|
    requires ViewOk(s.db, s.txns[t].(pc := pc))
    requires forall u :: 0 <= u < |s.txns| && u != t ==> LocksDiffer(s.txns[t].(pc := pc), s.txns[u])
    ensures LockInv(At(s, t, pc))
  {
    forall u | 0 <= u < |s.txns| { LocksSymmetric(s.txns[t].(pc := pc), s.txns[u]); }
  }

  lemma NextKeepsLocks(s: System, step: Step)
    requires LockInv(s)
    ensures LockInv(Next(s, step))
  {
    if Enabled(s, step) && !step.Begin? {
      var t := step.t;
      forall u | 0 <= u < |s.txns| && u != t ensures LocksDiffer(s.txns[t], s.txns[u]) {
        LocksSymmetric(s.txns[t], s.txns[u]);
        assert LocksDiffer(s.txns[if t < u then t else u], s.txns[if t < u then u else t]);
      }
      assert ViewOk(s.db, s.txns[t]);
      if step.CommitTxn? {
        CommitKeepsLocks(s, t);
      } else {
        MoveKeepsLocks(s, t, Next(s, step).txns[t].pc);
      }
    }
  }

  lemma CommitKeepsLocks(s: System, t: nat)
    requires LockInv(s) && Enabled(s, CommitTxn(t))
    requires forall u :: 0 <= u < |s.txns| && u != t ==> LocksDiffer(s.txns[t], s.txns[u])
    ensures LockInv(Next(s, CommitTxn(t)))
  {
    var s' := Next(s, CommitTxn(t));
    forall u | 0 <= u < |s'.txns| ensures ViewOk(s'.db, s'.txns[u]) {
      if u != t {
        CommitKeepsView(s.db, s.txns[t], s.txns[u]);
      }
    }
    forall a, b | 0 <= a < b < |s'.txns| ensures LocksDiffer(s'.txns[a], s'.txns[b]) {
      assert LocksDiffer(s.txns[a], s.txns[b]);
    }
  }

  lemma ExtendSerial(db0: Database, history: seq<Commit>, c: Commit)
    requires ResultsAgree(db0, history)
    requires CompleteTx(Serial(db0, history), c.call, c.newEventId, c.now).1 == c.result
    ensures Serial(db0, history + [c]) == CompleteTx(Serial(db0, history), c.call, c.newEventId, c.now).0
    ensures ResultsAgree(db0, history + [c])
  {
    var longer, n := history + [c], |history|;
    assert longer[..n] == history;
    forall k | 0 <= k <= n ensures ResultAgrees(db0, longer, k) {
      assert longer[..k] == history[..k];
      if k < n {
        assert ResultAgrees(db0, history, k);
      }
    }
  }

  lemma ExtendBooks(txns: seq<Txn>, history: seq<Commit>, t: nat, result: CompleteResult)
    requires Books(txns, history) && t < |txns| && !txns[t].pc.Committed?
    ensures Books(txns[t := txns[t].(pc := Committed(result))],
                  history + [Commit(t, txns[t].call, txns[t].newEventId, txns[t].now, result)])
  {
    var txns' := txns[t := txns[t].(pc := Committed(result))];
    var history' := history + [Commit(t, txns[t].call, txns[t].newEventId, txns[t].now, result)];
    assert history'[|history|].txn == t;
    forall u | 0 <= u < |txns'| && txns'[u].pc.Committed? ensures InHistory(history', u) {
      if u != t {
        var k :| 0 <= k < |history| && history[k].txn == u;
        assert history'[k].txn == u;
      }
    }
  }

  lemma CommitKeepsHistory(db0: Database, s: System, t: nat)
    requires LockInv(s) && HistoryInv(db0, s) && Enabled(s, CommitTxn(t))
    ensures HistoryInv(db0, Next(s, CommitTxn(t)))
  {
    var x := s.txns[t];
    var result := if x.pc.Emitted? then Applied else NotApplied;
    CommitIsAtomic(s, t);
    ExtendSerial(db0, s.history, Commit(t, x.call, x.newEventId, x.now, result));
    ExtendBooks(s.txns, s.history, t, result);
  }

  /** The other steps change the program counter of a transaction that stays uncommitted. */
  lemma MoveKeepsBooks(txns: seq<Txn>, history: seq<Commit>, t: nat, pc: Pc)
    requires Books(txns, history) && t < |txns| && !txns[t].pc.Committed? && !pc.Committed?
    ensures Books(txns[t := txns[t].(pc := pc)], history)
  {
  }

  lemma BeginKeepsBooks(txns: seq<Txn>, history: seq<Commit>, x: Txn)
    requires Books(txns, history) && x.pc.Begun?
    ensures Books(txns + [x], history)
  {
  }

  lemma NextKeepsHistory(db0: Database, s: System, step: Step)
    requires LockInv(s) && HistoryInv(db0, s)
    ensures HistoryInv(db0, Next(s, step))
  {
    if Enabled(s, step) {
      match step
      case Begin(call, newEventId, now) => BeginKeepsBooks(s.txns, s.history, Txn(call, newEventId, now, Begun));
      case CommitTxn(t) => CommitKeepsHistory(db0, s, t);
      case _ => MoveKeepsBooks(s.txns, s.history, step.t, Next(s, step).txns[step.t].pc);
    }
  }

  /**
   * Interleaved completion refines atomic completion. For every interleaving of any number of calls,
   * the committed database is what the atomic transaction produces when the committed calls run one
   * after another in their commit order; every committed call returned the result it has in that
   * serial run and occurs in it exactly once; calls that rolled back or are still running have no effect.
   */
  lemma {:induction false} InterleavingsAreSerial(db0: Database, steps: seq<Step>)
    ensures var s := Run(System(db0, [], []), steps);
            && LockInv(s)
            && s.db == Serial(db0, s.history) && ResultsAgree(db0, s.history)
            && Books(s.txns, s.history)
    decreases |steps|
  {
    if steps != [] {
      var s := Run(System(db0, [], []), steps[..|steps| - 1]);
      InterleavingsAreSerial(db0, steps[..|steps| - 1]);
      NextKeepsLocks(s, steps[|steps| - 1]);
      NextKeepsHistory(db0, s, steps[|steps| - 1]);
    }
  }

  /** The transactions never deadlock: as long as one is active, a statement of one can execute. */
  lemma NoDeadlock(db0: Database, steps: seq<Step>)
    requires var txns := Run(System(db0, [], []), steps).txns;
             exists t :: 0 <= t < |txns| && Active(txns[t])
    ensures exists step :: Enabled(Run(System(db0, [], []), steps), step) && !step.Begin? && !step.Abort?
  {
    var s := Run(System(db0, [], []), steps);
    var a: nat :| a < |s.txns| && Active(s.txns[a]);
    if e: nat :| e < |s.txns| && s.txns[e].pc.Emitted? {
      assert Enabled(s, CommitTxn(e));
    } else if o: nat :| o < |s.txns| && HoldsOrder(s.txns[o]) {
      assert Enabled(s, if s.txns[o].pc.LockedPending? then UpdateStatus(o)
                        else if s.txns[o].pc.LockedStale? then CommitTxn(o) else Emit(o));
    } else if k: nat :| k < |s.txns| && s.txns[k].pc.Inserted? {
      assert Enabled(s, LockOrder(k));
    } else {
      assert Enabled(s, if s.txns[a].pc.Begun? then InsertKey(a) else CommitTxn(a));
    }
  }

  /** The order is completed with this status. */
  predicate CompletedAs(db: Database, orderId: Uuid, status: Status) {
    orderId in db.orders && db.orders[orderId].status == status != Pending
  }

  lemma AppliedCompletes(db: Database, c: Commit)
    requires CompleteTx(db, c.call, c.newEventId, c.now).1 == Applied && c.call.status != Pending
    ensures CompletedAs(CompleteTx(db, c.call, c.newEventId, c.now).0, c.call.orderId, c.call.status)
  {
  }

  lemma CompletedStays(db: Database, c: Commit, orderId: Uuid, status: Status)
    requires CompletedAs(db, orderId, status)
    ensures CompletedAs(CompleteTx(db, c.call, c.newEventId, c.now).0, orderId, status)
    ensures c.call.orderId == orderId ==> CompleteTx(db, c.call, c.newEventId, c.now).1 != Applied
  {
  }

  lemma {:induction false} StaysCompleted(db0: Database, history: seq<Commit>, k: nat, l: nat)
    requires k < l <= |history| && ResultAgrees(db0, history, k)
    requires history[k].result == Applied && history[k].call.status != Pending
    ensures CompletedAs(Serial(db0, history[..l]), history[k].call.orderId, history[k].call.status)
    decreases l
  {
    var before := Serial(db0, history[..l - 1]);
    assert history[..l][..l - 1] == history[..l - 1] && history[..l][l - 1] == history[l - 1];
    if k + 1 == l {
      AppliedCompletes(before, history[k]);
    } else {
      StaysCompleted(db0, history, k, l - 1);
      CompletedStays(before, history[l - 1], history[k].call.orderId, history[k].call.status);
    }
  }

  lemma SecondDoesNotApply(db0: Database, history: seq<Commit>, k: nat, l: nat)
    requires k < l < |history| && ResultAgrees(db0, history, k) && ResultAgrees(db0, history, l)
    requires history[k].call.status != Pending && history[k].call.orderId == history[l].call.orderId
    ensures !(history[k].result == Applied && history[l].result == Applied)
  {
    if history[k].result == Applied {
      StaysCompleted(db0, history, k, l);
      CompletedStays(Serial(db0, history[..l]), history[l], history[k].call.orderId, history[k].call.status);
    }
  }

  /**
   * Among all committed calls about one order, in whatever way they were interleaved, at most one
   * has applied, and its status is the one that stays.
   */
  lemma AppliedAtMostOnce(db0: Database, steps: seq<Step>, k: nat, l: nat)
    requires var h := Run(System(db0, [], []), steps).history;
             && k < |h| && l < |h| && k != l
             && h[k].call.status != Pending && h[l].call.status != Pending
             && h[k].call.orderId == h[l].call.orderId
             && h[k].result == Applied
    ensures var s := Run(System(db0, [], []), steps);
            && s.history[l].result != Applied
            && CompletedAs(s.db, s.history[k].call.orderId, s.history[k].call.status)
  {
    InterleavingsAreSerial(db0, steps);
    var h := Run(System(db0, [], []), steps).history;
    assert ResultAgrees(db0, h, k) && ResultAgrees(db0, h, l);
    if k < l { SecondDoesNotApply(db0, h, k, l); } else { SecondDoesNotApply(db0, h, l, k); }
    StaysCompleted(db0, h, k, |h|);
    assert h[..|h|] == h;
  }

  // ---------- a transaction that meets no other ----------

  /** No other active transaction is about the same event, the same order or the same new row. */
  predicate Undisturbed(s: System, t: nat)
    requires t < |s.txns|
  {
    forall u :: 0 <= u < |s.txns| && u != t && Active(s.txns[u]) ==>
      && KeyOf(s.txns[u].call) != KeyOf(s.txns[t].call) && s.txns[u].call.orderId != s.txns[t].call.orderId
      && s.txns[u].newEventId != s.txns[t].newEventId
  }

  /** The statements in their order; those after a ROLLBACK or a conflict do nothing. */
  function StatementsOf(t: nat): seq<Step> {
    [InsertKey(t), LockOrder(t), UpdateStatus(t), Emit(t), CommitTxn(t)]
  }

  lemma RunStatements(s: System, t: nat)
    ensures Run(s, StatementsOf(t))
            == Next(Next(Next(Next(Next(s, InsertKey(t)), LockOrder(t)), UpdateStatus(t)), Emit(t)), CommitTxn(t))
  {
    var all := StatementsOf(t);
    OneMore(s, [], InsertKey(t));
    OneMore(s, all[..1], LockOrder(t));
    OneMore(s, all[..2], UpdateStatus(t));
    OneMore(s, all[..3], Emit(t));
    OneMore(s, all[..4], CommitTxn(t));
    assert all[..1] == [] + [InsertKey(t)] && all[..2] == all[..1] + [LockOrder(t)];
    assert all[..3] == all[..2] + [UpdateStatus(t)] && all[..4] == all[..3] + [Emit(t)];
    assert all == all[..4] + [CommitTxn(t)];
  }

  lemma OneMore(s: System, front: seq<Step>, last: Step)
    ensures Run(s, front + [last]) == Next(Run(s, front), last) && Run(s, []) == s
  {
    assert (front + [last])[..|front|] == front;
  }

  /** It waits for nobody, whoever else is at work, and its statements do what the atomic transaction does. */
  lemma UndisturbedIsAtomic(s: System, t: nat)
    requires t < |s.txns| && s.txns[t].pc.Begun? && Undisturbed(s, t)
    ensures var x, s' := s.txns[t], Run(s, StatementsOf(t));
            var (db, result) := CompleteTx(s.db, x.call, x.newEventId, x.now);
            && s'.db == db
            && s'.txns == s.txns[t := x.(pc := if result == CompleteFailed then RolledBack else Committed(result))]
  {
    RunStatements(s, t);
    var x, s1 := s.txns[t], Next(s, InsertKey(t));
    var result := CompleteTx(s.db, x.call, x.newEventId, x.now).1;
    var end := if result == CompleteFailed then RolledBack else Committed(result);
    SetTwice(s.txns, t, s1.txns[t], x.(pc := end));
    if KeyOf(x.call) in s.db.processed {
      assert s1 == At(s, t, Duplicate);
      assert Next(Next(Next(s1, LockOrder(t)), UpdateStatus(t)), Emit(t)) == s1;
      assert Next(s1, CommitTxn(t)).txns == s1.txns[t := x.(pc := end)];
    } else {
      assert s1 == At(s, t, Inserted) && Undisturbed(s1, t);
      UndisturbedCompletes(s1, t);
      assert s1.txns[t].(pc := end) == x.(pc := end);
    }
  }

  /** So a call that conflicts with none under way is, from its BEGIN on, the atomic transaction. */
  lemma UndisturbedCallIsAtomic(s: System, call: Completion, newEventId: Uuid, now: Time)
    requires forall u :: 0 <= u < |s.txns| && Active(s.txns[u]) ==>
               KeyOf(s.txns[u].call) != KeyOf(call) && s.txns[u].call.orderId != call.orderId
               && s.txns[u].newEventId != newEventId
    ensures var s' := Run(Run(s, [Begin(call, newEventId, now)]), StatementsOf(|s.txns|));
            var (db, result) := CompleteTx(s.db, call, newEventId, now);
            && s'.db == db
            && s'.txns == s.txns + [Txn(call, newEventId, now,
                                        if result == CompleteFailed then RolledBack else Committed(result))]
  {
    OneMore(s, [], Begin(call, newEventId, now));
    assert [] + [Begin(call, newEventId, now)] == [Begin(call, newEventId, now)];
    var s1, t := Run(s, [Begin(call, newEventId, now)]), |s.txns|;
    assert s1.txns[t] == Txn(call, newEventId, now, Begun);
    UndisturbedIsAtomic(s1, t);
  }

  lemma SetTwice(txns: seq<Txn>, t: nat, x: Txn, y: Txn)
    requires t < |txns|
    ensures txns[t := x][t := y] == txns[t := y]
  {
  }

  /** From the locked key on. */
  lemma UndisturbedCompletes(s: System, t: nat)
    requires t < |s.txns| && s.txns[t].pc.Inserted? && Undisturbed(s, t) && KeyOf(s.txns[t].call) !in s.db.processed
    ensures var x, s' := s.txns[t], Next(Next(Next(Next(s, LockOrder(t)), UpdateStatus(t)), Emit(t)), CommitTxn(t));
            var (db, result) := CompleteTx(s.db, x.call, x.newEventId, x.now);
            && s'.db == db
            && s'.txns == s.txns[t := x.(pc := if result == CompleteFailed then RolledBack else Committed(result))]
  {
    var x, s2 := s.txns[t], Next(s, LockOrder(t));
    assert s2 == At(s, t, AfterLock(s.db, x));
    if s2.txns[t].pc.LockedPending? {
      var s3 := Next(s2, UpdateStatus(t));
      if s3.txns[t].pc.StatusUpdated? {
        assert Undisturbed(s3, t);
        assert Enabled(s3, Emit(t));
      }
    }
  }
}
