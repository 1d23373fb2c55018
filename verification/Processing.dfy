/**
 * Fan-out/fan-in of one order's operations (internal/processing/processor.go). `FanIn` is the
 * machine of its goroutines; `Collect` is the collecting goroutine's code on what it received.
 */
module Processing {
  import opened Text
  import opened Orders
  import opened Permutations

  /** An outcome; an empty operation name has already been replaced by `Operation.Name()`. */
  datatype Outcome = Outcome(operation: string, success: bool, required: bool, details: string)

  datatype OpResult = OpResult(outcome: Outcome, failed: bool)

  datatype Verdict = ProcessError | Done(status: Status, reason: string, outcomes: seq<Outcome>)

  // ---------- the collector ----------

  predicate AnyFailed(results: seq<OpResult>) {
    exists i :: 0 <= i < |results| && results[i].failed
  }

  predicate Rejects(outcome: Outcome) {
    outcome.required && !outcome.success
  }

  function OutcomesOf(results: seq<OpResult>): (outs: seq<Outcome>)
    ensures |outs| == |results| && forall i :: 0 <= i < |outs| ==> outs[i] == results[i].outcome
  {
    seq(|results|, i requires 0 <= i < |results| => results[i].outcome)
  }

  /** What `sort.Slice` by operation promises; ties may come in any order. */
  predicate SortedByOperation(outs: seq<Outcome>) {
    forall i, j :: 0 <= i < j < |outs| ==> !Less(outs[j].operation, outs[i].operation)
  }

  /** `strings.Join` of the failed required operations, in the order of `outs`. */
  function Reason(outs: seq<Outcome>): string {
    if outs == [] then ""
    else
      var front, last := Reason(outs[..|outs| - 1]), outs[|outs| - 1];
      if !Rejects(last) then front
      else if exists i :: 0 <= i < |outs| - 1 && Rejects(outs[i])
        then front + "; " + last.operation + ": " + last.details
        else last.operation + ": " + last.details
  }

  /** Sorts by operation; callers learn nothing about the order of equal names. */
  method SortByOperation(outs: seq<Outcome>) returns (sorted: seq<Outcome>)
    ensures multiset(sorted) == multiset(outs) && SortedByOperation(sorted)
  {
    sorted := [];
    for i := 0 to |outs|
      invariant multiset(sorted) == multiset(outs[..i]) && SortedByOperation(sorted)
    {
      sorted := Insert(sorted, outs[i]);
      assert outs[..i + 1] == outs[..i] + [outs[i]];
    }
    assert outs[..|outs|] == outs;
  }

  method Insert(sorted: seq<Outcome>, x: Outcome) returns (result: seq<Outcome>)
    requires SortedByOperation(sorted)
    ensures multiset(result) == multiset(sorted) + multiset{x} && SortedByOperation(result)
  {
    var k := |sorted|;
    while k > 0 && Less(x.operation, sorted[k - 1].operation)
      invariant 0 <= k <= |sorted|
      invariant forall j :: k <= j < |sorted| ==> Less(x.operation, sorted[j].operation)
    {
      k := k - 1;
    }
    assert sorted == sorted[..k] + sorted[k..];
    InsertSorted(sorted[..k], x, sorted[k..]);
    result := sorted[..k] + [x] + sorted[k..];
  }

  /** The insertion point found by the inner loop is the right one. */
  lemma InsertSorted(a: seq<Outcome>, x: Outcome, b: seq<Outcome>)
    requires SortedByOperation(a + b)
    requires forall j :: 0 <= j < |b| ==> Less(x.operation, b[j].operation)
    requires a != [] ==> !Less(x.operation, a[|a| - 1].operation)
    ensures SortedByOperation(a + [x] + b)
  {
    assert forall i :: 0 <= i < |a| ==> (a + b)[i] == a[i];
    assert forall j :: 0 <= j < |b| ==> (a + b)[|a| + j] == b[j];
    forall i | 0 <= i < |a| ensures !Less(x.operation, a[i].operation) {
      NotBelowPrefix(x.operation, a[i].operation, a[|a| - 1].operation);
    }
    forall j | 0 <= j < |b| ensures !Less(b[j].operation, x.operation) {
      LessTrichotomy(x.operation, b[j].operation);
    }
    SplitSorted(a, x, b);
  }

  lemma SplitSorted(a: seq<Outcome>, x: Outcome, b: seq<Outcome>)
    requires SortedByOperation(a) && SortedByOperation(b)
    requires forall i :: 0 <= i < |a| ==> !Less(x.operation, a[i].operation)
    requires forall j :: 0 <= j < |b| ==> !Less(b[j].operation, x.operation)
    requires forall i, j :: 0 <= i < |a| && 0 <= j < |b| ==> !Less(b[j].operation, a[i].operation)
    ensures SortedByOperation(a + [x] + b)
  {
  }

  lemma NotBelowPrefix(x: string, a: string, b: string)
    requires a == b || !Less(b, a)
    requires !Less(x, b)
    ensures !Less(x, a)
  {
    LessTrichotomy(a, b);
    if Less(x, a) && Less(a, b) {
      LessTransitive(x, a, b);
    }
  }

  /** The loop over the sorted outcomes that gathers the failed required operations. */
  method JoinFailures(outs: seq<Outcome>) returns (rejected: bool, reason: string)
    ensures rejected <==> exists i :: 0 <= i < |outs| && outs[i].required && !outs[i].success
    ensures reason == Reason(outs) && (!rejected ==> reason == "")
  {
    rejected, reason := false, "";
    for i := 0 to |outs|
      invariant rejected <==> exists j :: 0 <= j < i && Rejects(outs[j])
      invariant reason == Reason(outs[..i])
    {
      assert outs[..i + 1][..i] == outs[..i];
      if outs[i].required && !outs[i].success {
        reason := (if rejected then reason + "; " else "") + outs[i].operation + ": " + outs[i].details;
        rejected := true;
      }
    }
    assert outs[..|outs|] == outs;
    assert forall i :: 0 <= i < |outs| ==> (Rejects(outs[i]) <==> outs[i].required && !outs[i].success);
    if !rejected {
      NothingRejected(outs);
    }
  }

  /** What `Process` may return for results arriving in this order. */
  predicate MayReturn(arrivals: seq<OpResult>, v: Verdict) {
    && (v.ProcessError? <==> arrivals == [] || AnyFailed(arrivals))
    && (v.Done? ==>
          && multiset(v.outcomes) == multiset(OutcomesOf(arrivals)) && SortedByOperation(v.outcomes)
          && v.reason == Reason(v.outcomes)
          && v.status == (if exists i :: 0 <= i < |arrivals| && Rejects(arrivals[i].outcome) then Failed
                          else Confirmed))
  }

  /** Some required operation did not succeed. */
  predicate SomeRequiredFailed(results: seq<OpResult>) {
    exists i :: 0 <= i < |results| && results[i].outcome.required && !results[i].outcome.success
  }

  /** What a verdict says about the arrivals, read off their fields. */
  lemma VerdictMeans(arrivals: seq<OpResult>, v: Verdict)
    requires MayReturn(arrivals, v)
    ensures v.ProcessError? <==> |arrivals| == 0 || exists i :: 0 <= i < |arrivals| && arrivals[i].failed
    ensures v.Done? ==> v.status == (if SomeRequiredFailed(arrivals) then Failed else Confirmed)
    ensures v.Done? && v.status == Confirmed ==> v.reason == ""
  {
    assert forall i :: 0 <= i < |arrivals| ==>
             (Rejects(arrivals[i].outcome) <==> arrivals[i].outcome.required && !arrivals[i].outcome.success);
    if v.Done? && v.status == Confirmed {
      SameMembers(OutcomesOf(arrivals), v.outcomes);
      forall i | 0 <= i < |v.outcomes| ensures !Rejects(v.outcomes[i]) {
        assert v.outcomes[i] in v.outcomes;
        var k := IndexOf(OutcomesOf(arrivals), v.outcomes[i]);
        assert !Rejects(arrivals[k].outcome);
      }
      NothingRejected(v.outcomes);
    }
  }

  /** `Processor.Process` from the first receive on, given the results in their order of arrival. */
  method Collect(arrivals: seq<OpResult>) returns (v: Verdict)
    ensures MayReturn(arrivals, v)
    ensures v.ProcessError? <==> |arrivals| == 0 || exists i :: 0 <= i < |arrivals| && arrivals[i].failed
    ensures v.Done? ==> v.status == (if SomeRequiredFailed(arrivals) then Failed else Confirmed)
    ensures v.Done? && v.status == Confirmed ==> v.reason == ""
  {
    if |arrivals| == 0 {
      return ProcessError;
    }
    var joined := false;
    var outcomes := [];
    for i := 0 to |arrivals|
      invariant joined <==> AnyFailed(arrivals[..i])
      invariant outcomes == OutcomesOf(arrivals[..i])
    {
      assert arrivals[..i + 1][..i] == arrivals[..i];
      if arrivals[i].failed {
        joined := true;
        assert arrivals[..i + 1][i].failed;
      }
      outcomes := outcomes + [arrivals[i].outcome];
    }
    assert arrivals[..|arrivals|] == arrivals;
    if joined {
      return ProcessError;
    }
    var sorted := SortByOperation(outcomes);
    var rejected, reason := JoinFailures(sorted);
    RequiredFailedSorted(arrivals, sorted);
    v := if rejected then Done(Failed, reason, sorted) else Done(Confirmed, "", sorted);
    VerdictMeans(arrivals, v);
  }

  lemma RequiredFailedSorted(arrivals: seq<OpResult>, sorted: seq<Outcome>)
    requires multiset(sorted) == multiset(OutcomesOf(arrivals))
    ensures (exists i :: 0 <= i < |sorted| && Rejects(sorted[i]))
            <==> (exists i :: 0 <= i < |arrivals| && Rejects(arrivals[i].outcome))
  {
    SameMembers(OutcomesOf(arrivals), sorted);
    if j :| 0 <= j < |sorted| && Rejects(sorted[j]) {
      assert sorted[j] in OutcomesOf(arrivals);
    }
    if i :| 0 <= i < |arrivals| && Rejects(arrivals[i].outcome) {
      assert OutcomesOf(arrivals)[i] in sorted;
    }
  }

  lemma {:induction false} NothingRejected(outs: seq<Outcome>)
    requires forall i :: 0 <= i < |outs| ==> !Rejects(outs[i])
    ensures Reason(outs) == ""
  {
    if outs != [] {
      NothingRejected(outs[..|outs| - 1]);
    }
  }

  // ---------- what the reason says ----------

  predicate NoRequiredFailed(outs: seq<Outcome>) {
    forall i :: 0 <= i < |outs| ==> outs[i].success || !outs[i].required
  }

  function FailureText(x: Outcome): string {
    x.operation + ": " + x.details
  }

  /** A single outcome is named, with its details, if it was required and failed. */
  lemma ReasonOfOne(x: Outcome)
    ensures Reason([x]) == if x.required && !x.success then FailureText(x) else ""
  {
    assert [x][..0] == [];
  }

  /** Two parts are joined by a semicolon if both have something to say. */
  lemma {:induction false} ReasonJoins(a: seq<Outcome>, b: seq<Outcome>)
    ensures Reason(a + b) == if NoRequiredFailed(a) then Reason(b)
                             else if NoRequiredFailed(b) then Reason(a)
                             else Reason(a) + "; " + Reason(b)
    decreases |b|
  {
    if b == [] {
      assert a + b == a;
      if NoRequiredFailed(a) {
        NothingRejected(a);
      }
    } else {
      var front, last := b[..|b| - 1], b[|b| - 1];
      ReasonJoins(a, front);
      assert b == front + [last] && a + b == a + front + [last];
      JoinsOneMore(a, front, last);
    }
  }

  lemma JoinsOneMore(a: seq<Outcome>, front: seq<Outcome>, last: Outcome)
    requires Reason(a + front) == if NoRequiredFailed(a) then Reason(front)
                                  else if NoRequiredFailed(front) then Reason(a)
                                  else Reason(a) + "; " + Reason(front)
    ensures Reason(a + front + [last]) == if NoRequiredFailed(a) then Reason(front + [last])
                                          else if NoRequiredFailed(front + [last]) then Reason(a)
                                          else Reason(a) + "; " + Reason(front + [last])
  {
    ReasonExtends(front, last);
    ReasonExtends(a + front, last);
    NoneInEither(a, front);
    NoneInEither(front, [last]);
    assert [last][0] == last;
    if !last.success && last.required && !NoRequiredFailed(a) && !NoRequiredFailed(front) {
      Regroup(Reason(a), Reason(front), FailureText(last));
    }
  }

  lemma Regroup(a: string, b: string, c: string)
    ensures a + "; " + b + "; " + c == a + "; " + (b + "; " + c)
  {
  }

  lemma NoneInEither(a: seq<Outcome>, b: seq<Outcome>)
    ensures NoRequiredFailed(a + b) <==> NoRequiredFailed(a) && NoRequiredFailed(b)
  {
    assert forall i :: 0 <= i < |a| ==> (a + b)[i] == a[i];
    assert forall i :: 0 <= i < |b| ==> (a + b)[|a| + i] == b[i];
  }

  lemma ReasonExtends(front: seq<Outcome>, last: Outcome)
    ensures Reason(front + [last]) == if last.success || !last.required then Reason(front)
                                      else if NoRequiredFailed(front) then FailureText(last)
                                      else Reason(front) + "; " + FailureText(last)
  {
    var outs := front + [last];
    assert outs[..|front|] == front;
    assert Reason(front) + "; " + last.operation + ": " + last.details == Reason(front) + "; " + FailureText(last);
    assert NoRequiredFailed(front) <==> !exists i :: 0 <= i < |front| && Rejects(outs[i]);
  }

  // ---------- optional operations do not count ----------

  /** Changing how optional outcomes ended, in place, changes no word of the reason. */
  lemma {:induction false} ReasonIgnoresOptional(a: seq<Outcome>, b: seq<Outcome>)
    requires |a| == |b|
    requires forall i :: 0 <= i < |a| ==> a[i] == b[i] || (!a[i].required && !b[i].required)
    ensures Reason(a) == Reason(b)
  {
    if a != [] {
      var k := |a| - 1;
      ReasonIgnoresOptional(a[..k], b[..k]);
      assert a == a[..k] + [a[k]] && b == b[..k] + [b[k]];
      ReasonExtends(a[..k], a[k]);
      ReasonExtends(b[..k], b[k]);
      assert forall i :: 0 <= i < k ==> a[..k][i] == a[i] && b[..k][i] == b[i];
    }
  }

  /**
   * However an optional operation ends, `Process` may return the same status with the same reason: only
   * its own outcome is listed differently.
   */
  lemma OptionalOutcomeDoesNotCount(arrivals: seq<OpResult>, k: nat, success: bool, details: string, v: Verdict)
    returns (v': Verdict)
    requires k < |arrivals| && !arrivals[k].outcome.required && MayReturn(arrivals, v)
    ensures var changed := arrivals[k].outcome.(success := success, details := details);
            MayReturn(arrivals[k := arrivals[k].(outcome := changed)], v')
    ensures v.ProcessError? <==> v'.ProcessError?
    ensures v.Done? ==> v'.status == v.status && v'.reason == v.reason
  {
    var x := arrivals[k].outcome;
    var y := x.(success := success, details := details);
    var changed := arrivals[k := arrivals[k].(outcome := y)];
    assert forall i :: 0 <= i < |arrivals| ==> changed[i].failed == arrivals[i].failed;
    if v.ProcessError? {
      v' := ProcessError;
    } else {
      var outs := OutcomesOf(arrivals);
      SameMembers(outs, v.outcomes);
      assert outs[k] == x;
      var j := IndexOf(v.outcomes, x);
      var outcomes := v.outcomes[j := y];
      assert OutcomesOf(changed) == outs[k := y];
      ReasonIgnoresOptional(v.outcomes, outcomes);
      assert forall i :: 0 <= i < |arrivals| ==> (Rejects(changed[i].outcome) <==> Rejects(arrivals[i].outcome));
      v' := Done(v.status, v.reason, outcomes);
    }
  }

  // ---------- the goroutines ----------

  datatype Arrival = Arrival(op: nat, result: OpResult)

  /**
   * `live` gives each operation's result when its context stays live. After a sibling's error has
   * cancelled the context, an operation that is still running may return anything.
   */
  datatype FanIn = FanIn(live: seq<OpResult>, running: set<nat>, buffer: seq<Arrival>, collected: seq<Arrival>,
                         canceled: bool)

  datatype Step = Return(op: nat, result: OpResult) | Receive

  function Launch(live: seq<OpResult>): FanIn {
    FanIn(live, Below(|live|), [], [], false)
  }

  /** Sending blocks when the buffer, of capacity `len(operations)`, is full. */
  predicate CanReturn(s: FanIn, op: nat, result: OpResult) {
    op in s.running && op < |s.live| && |s.buffer| < |s.live| && (s.canceled || result == s.live[op])
  }

  predicate CanReceive(s: FanIn) {
    s.buffer != [] && |s.collected| < |s.live|
  }

  function Next(s: FanIn, step: Step): FanIn {
    match step
    case Return(op, result) =>
      if CanReturn(s, op, result)
        then s.(running := s.running - {op}, buffer := s.buffer + [Arrival(op, result)]) else s
    case Receive =>
      if CanReceive(s)
        then s.(buffer := s.buffer[1..], collected := s.collected + [s.buffer[0]],
                canceled := s.canceled || s.buffer[0].result.failed)
        else s
  }

  function Run(s: FanIn, steps: seq<Step>): FanIn {
    if steps == [] then s else Next(Run(s, steps[..|steps| - 1]), steps[|steps| - 1])
  }

  predicate Complete(s: FanIn) {
    |s.collected| == |s.live|
  }

  /** Everything that has arrived, received or not, in order. */
  function Arrived(s: FanIn): seq<Arrival> {
    s.collected + s.buffer
  }

  function Results(arrivals: seq<Arrival>): (rs: seq<OpResult>)
    ensures |rs| == |arrivals| && forall i :: 0 <= i < |rs| ==> rs[i] == arrivals[i].result
  {
    seq(|arrivals|, i requires 0 <= i < |arrivals| => arrivals[i].result)
  }

  ghost predicate Inv(s: FanIn) {
    && (forall op :: op in s.running ==> op < |s.live|)
    && |s.running| + |Arrived(s)| == |s.live|
    && (forall i :: 0 <= i < |Arrived(s)| ==> Arrived(s)[i].op < |s.live| && Arrived(s)[i].op !in s.running)
    && (forall i, j :: 0 <= i < j < |Arrived(s)| ==> Arrived(s)[i].op != Arrived(s)[j].op)
    && (!s.canceled ==> forall i :: 0 <= i < |Arrived(s)| ==> Arrived(s)[i].result == s.live[Arrived(s)[i].op])
    && (s.canceled <==> AnyFailed(Results(s.collected)))
    && (s.canceled ==> AnyFailed(s.live))
  }

  lemma ReturnKeepsInv(s: FanIn, op: nat, result: OpResult)
    requires Inv(s) && CanReturn(s, op, result)
    ensures Inv(Next(s, Return(op, result)))
  {
    var t := Next(s, Return(op, result));
    assert Arrived(t) == Arrived(s) + [Arrival(op, result)];
  }

  lemma ReceiveKeepsInv(s: FanIn)
    requires Inv(s) && CanReceive(s)
    ensures Inv(Next(s, Receive))
  {
    var t := Next(s, Receive);
    assert Arrived(t) == Arrived(s);
    assert s.buffer[0] == Arrived(s)[|s.collected|];
    assert t.collected[..|s.collected|] == s.collected;
    assert Results(t.collected) == Results(s.collected) + [s.buffer[0].result];
    if AnyFailed(Results(s.collected)) {
      var i :| 0 <= i < |s.collected| && Results(s.collected)[i].failed;
      assert Results(t.collected)[i].failed;
    }
    if s.buffer[0].result.failed {
      assert Results(t.collected)[|s.collected|].failed;
      if !s.canceled {
        assert s.live[s.buffer[0].op].failed;
      }
    }
  }

  lemma LaunchInv(live: seq<OpResult>)
    ensures Inv(Launch(live))
  {
  }

  lemma {:induction false} RunKeepsInv(live: seq<OpResult>, steps: seq<Step>)
    ensures Inv(Run(Launch(live), steps)) && Run(Launch(live), steps).live == live
    decreases |steps|
  {
    if steps == [] {
      LaunchInv(live);
    } else {
      var s, step := Run(Launch(live), steps[..|steps| - 1]), steps[|steps| - 1];
      RunKeepsInv(live, steps[..|steps| - 1]);
      match step
      case Return(op, result) => if CanReturn(s, op, result) { ReturnKeepsInv(s, op, result); }
      case Receive => if CanReceive(s) { ReceiveKeepsInv(s); }
    }
  }

  /**
   * No goroutine is ever blocked on its send, and the collector is never stuck: while results are
   * missing, an operation is running, or something is there to receive.
   */
  lemma NobodyBlocks(live: seq<OpResult>, steps: seq<Step>)
    ensures var s := Run(Launch(live), steps);
            && (forall op, result :: op in s.running && (s.canceled || (op < |live| && result == live[op])) ==>
                CanReturn(s, op, result))
            && (!Complete(s) ==> CanReceive(s) || exists op: nat :: op < |live| && CanReturn(s, op, live[op]))
  {
    RunKeepsInv(live, steps);
    var s := Run(Launch(live), steps);
    forall op, result | op in s.running && (s.canceled || (op < |live| && result == live[op]))
      ensures CanReturn(s, op, result)
    {
      assert s.running != {};
    }
    if !Complete(s) && s.buffer == [] {
      assert |s.running| > 0;
      var op :| op in s.running;
      assert CanReturn(s, op, live[op]);
    }
  }

  // ---------- the verdict does not depend on the schedule ----------

  function OpsOf(arrivals: seq<Arrival>): (ops: seq<nat>)
    ensures |ops| == |arrivals| && forall i :: 0 <= i < |ops| ==> ops[i] == arrivals[i].op
  {
    seq(|arrivals|, i requires 0 <= i < |arrivals| => arrivals[i].op)
  }

  /**
   * For every completion order and every cancellation among siblings: `Process` reports an error
   * exactly when some operation fails on a live context. So which operation was faster never
   * decides between an error and a verdict.
   */
  lemma ErrorIsScheduleIndependent(live: seq<OpResult>, steps: seq<Step>)
    requires Complete(Run(Launch(live), steps))
    ensures AnyFailed(Results(Run(Launch(live), steps).collected)) <==> AnyFailed(live)
  {
    RunKeepsInv(live, steps);
    var s := Run(Launch(live), steps);
    assert Arrived(s) == s.collected;
    if AnyFailed(live) && !s.canceled {
      var op :| 0 <= op < |live| && live[op].failed;
      var i := Pigeonhole(OpsOf(s.collected), |live|, op);
    }
  }

  /** Without an error, what is collected is a rearrangement of the live results. */
  lemma CollectedIsPermutation(live: seq<OpResult>, steps: seq<Step>)
    requires Complete(Run(Launch(live), steps)) && !AnyFailed(live)
    ensures multiset(Results(Run(Launch(live), steps).collected)) == multiset(live)
  {
    RunKeepsInv(live, steps);
    var s := Run(Launch(live), steps);
    assert Arrived(s) == s.collected;
    PermutationOfLive(live, s.collected);
  }

  lemma {:induction false} PermutationOfLive(live: seq<OpResult>, arrivals: seq<Arrival>)
    requires |arrivals| == |live|
    requires forall i :: 0 <= i < |arrivals| ==> arrivals[i].op < |live| && arrivals[i].result == live[arrivals[i].op]
    requires forall i, j :: 0 <= i < j < |arrivals| ==> arrivals[i].op != arrivals[j].op
    ensures multiset(Results(arrivals)) == multiset(live)
    decreases |live|
  {
    if live == [] {
      assert Results(arrivals) == live;
    } else {
      var last := |live| - 1;
      var k := Pigeonhole(OpsOf(arrivals), |live|, last);
      WithoutArrival(arrivals, k, live);
      PermutationOfLive(live[..last], RemoveAt(arrivals, k));
      PutBack(Results(arrivals), k, live);
    }
  }

  lemma WithoutArrival(arrivals: seq<Arrival>, k: nat, live: seq<OpResult>)
    requires k < |arrivals| == |live| && arrivals[k].op == |live| - 1
    requires forall i :: 0 <= i < |arrivals| ==> arrivals[i].op < |live| && arrivals[i].result == live[arrivals[i].op]
    requires forall i, j :: 0 <= i < j < |arrivals| ==> arrivals[i].op != arrivals[j].op
    ensures var rest, front := RemoveAt(arrivals, k), live[..|live| - 1];
            && Results(rest) == RemoveAt(Results(arrivals), k)
            && (forall i :: 0 <= i < |rest| ==> rest[i].op < |front| && rest[i].result == front[rest[i].op])
            && (forall i, j :: 0 <= i < j < |rest| ==> rest[i].op != rest[j].op)
  {
    var rest := RemoveAt(arrivals, k);
    forall i | 0 <= i < |rest| ensures rest[i].op < |live| - 1 {
      assert rest[i] == arrivals[if i < k then i else i + 1];
    }
  }

  /** Operations that share a name have the same outcome. */
  predicate TiesAgree(outs: seq<Outcome>) {
    forall i, j :: 0 <= i < |outs| && 0 <= j < |outs| && outs[i].operation == outs[j].operation ==> outs[i] == outs[j]
  }

  /** Two sorted arrangements of outcomes whose ties agree are the same sequence. */
  lemma {:induction false} SortedIsUnique(a: seq<Outcome>, b: seq<Outcome>)
    requires multiset(a) == multiset(b) && TiesAgree(a)
    requires SortedByOperation(a) && SortedByOperation(b)
    ensures a == b
    decreases |a|
  {
    SameMembers(a, b);
    if a != [] {
      SortedLast(a, b);
      FrontsRearranged(a, b);
      SortedIsUnique(a[..|a| - 1], b[..|b| - 1]);
      assert a == a[..|a| - 1] + [a[|a| - 1]] && b == b[..|b| - 1] + [b[|b| - 1]];
    }
  }

  lemma FrontsRearranged(a: seq<Outcome>, b: seq<Outcome>)
    requires a != [] && b != [] && multiset(a) == multiset(b) && a[|a| - 1] == b[|b| - 1]
    ensures multiset(a[..|a| - 1]) == multiset(b[..|b| - 1])
  {
    DropLastMultiset(a);
    DropLastMultiset(b);
  }

  lemma SortedLast(a: seq<Outcome>, b: seq<Outcome>)
    requires a != [] && multiset(a) == multiset(b) && TiesAgree(a)
    requires SortedByOperation(a) && SortedByOperation(b)
    ensures |a| == |b| && a[|a| - 1] == b[|b| - 1]
  {
    SameMembers(a, b);
    var last := |a| - 1;
    var i := IndexOf(a, b[last]);
    var k := IndexOf(b, a[last]);
    LessTrichotomy(a[i].operation, a[last].operation);
  }

  /** The status that the operations themselves determine: never PENDING. */
  function LiveStatus(live: seq<OpResult>): Status {
    if exists i :: 0 <= i < |live| && Rejects(live[i].outcome) then Failed else Confirmed
  }

  lemma LiveStatusIs(live: seq<OpResult>)
    ensures LiveStatus(live) == if SomeRequiredFailed(live) then Failed else Confirmed
  {
    assert forall i :: 0 <= i < |live| ==>
             (Rejects(live[i].outcome) <==> live[i].outcome.required && !live[i].outcome.success);
  }

  /**
   * Fan-in is schedule-independent. Any verdict of any complete run errs exactly when a live
   * operation fails, and otherwise has the status that the live outcomes determine.
   */
  lemma VerdictIsScheduleIndependent(live: seq<OpResult>, steps: seq<Step>, v: Verdict)
    requires Complete(Run(Launch(live), steps)) && MayReturn(Results(Run(Launch(live), steps).collected), v)
    ensures v.ProcessError? <==> live == [] || AnyFailed(live)
    ensures v.Done? ==> v.status == LiveStatus(live) && multiset(v.outcomes) == multiset(OutcomesOf(live))
    ensures v.Done? ==> v.status == (if SomeRequiredFailed(live) then Failed else Confirmed)
  {
    LiveStatusIs(live);
    var results := Results(Run(Launch(live), steps).collected);
    RunKeepsInv(live, steps);
    ErrorIsScheduleIndependent(live, steps);
    if v.Done? {
      CollectedIsPermutation(live, steps);
      RearrangedOutcomes(results, live);
    }
  }

  lemma RearrangedOutcomes(a: seq<OpResult>, b: seq<OpResult>)
    requires multiset(a) == multiset(b)
    ensures multiset(OutcomesOf(a)) == multiset(OutcomesOf(b))
    ensures (exists i :: 0 <= i < |a| && Rejects(a[i].outcome)) <==> (exists i :: 0 <= i < |b| && Rejects(b[i].outcome))
  {
    SameMembers(a, b);
    MapPermutation((r: OpResult) => r.outcome, a, b, OutcomesOf(a), OutcomesOf(b));
    if i :| 0 <= i < |a| && Rejects(a[i].outcome) {
      var j := IndexOf(b, a[i]);
    }
    if i :| 0 <= i < |b| && Rejects(b[i].outcome) {
      var j := IndexOf(a, b[i]);
    }
  }

  // ---------- the whole result depends on the schedule exactly when ties disagree ----------

  /** Some schedule lets `Process` return this verdict. */
  ghost predicate MayResult(live: seq<OpResult>, v: Verdict) {
    exists steps :: Complete(Run(Launch(live), steps)) && MayReturn(Results(Run(Launch(live), steps).collected), v)
  }

  lemma ResultMeans(live: seq<OpResult>, v: Verdict)
    requires MayResult(live, v)
    ensures v.ProcessError? <==> live == [] || AnyFailed(live)
    ensures v.Done? ==> v.status == LiveStatus(live) && multiset(v.outcomes) == multiset(OutcomesOf(live))
    ensures v.Done? ==> SortedByOperation(v.outcomes) && v.reason == Reason(v.outcomes)
  {
    var steps :| Complete(Run(Launch(live), steps)) && MayReturn(Results(Run(Launch(live), steps).collected), v);
    VerdictIsScheduleIndependent(live, steps, v);
  }

  /** The goroutines one after the other: the first `k` have returned and been received. */
  ghost predicate InOrder(live: seq<OpResult>, k: nat, s: FanIn) {
    && s.live == live && s.buffer == [] && !s.canceled && |s.collected| == k <= |live|
    && (forall op :: op in s.running <==> k <= op < |live|)
    && forall i :: 0 <= i < k ==> s.collected[i] == Arrival(i, live[i])
  }

  lemma OneMoreInOrder(live: seq<OpResult>, k: nat, s: FanIn)
    requires InOrder(live, k, s) && k < |live| && !live[k].failed
    ensures InOrder(live, k + 1, Next(Next(s, Return(k, live[k])), Receive))
  {
  }

  lemma TwoSteps(s: FanIn, front: seq<Step>, first: Step, second: Step)
    ensures Run(s, front + [first, second]) == Next(Next(Run(s, front), first), second)
  {
    var steps := front + [first, second];
    assert steps[..|steps| - 1] == front + [first] && (front + [first])[..|front|] == front;
  }

  lemma {:induction false} InOrderIsReached(live: seq<OpResult>, k: nat) returns (steps: seq<Step>)
    requires k <= |live| && !AnyFailed(live)
    ensures InOrder(live, k, Run(Launch(live), steps))
  {
    if k == 0 {
      steps := [];
    } else {
      var front := InOrderIsReached(live, k - 1);
      steps := front + [Return(k - 1, live[k - 1]), Receive];
      TwoSteps(Launch(live), front, Return(k - 1, live[k - 1]), Receive);
      OneMoreInOrder(live, k - 1, Run(Launch(live), front));
    }
  }

  /** Without errors, every sorted arrangement of the outcomes may be the result. */
  lemma ArrangementMayResult(live: seq<OpResult>, outs: seq<Outcome>)
    requires live != [] && !AnyFailed(live) && SortedByOperation(outs) && multiset(outs) == multiset(OutcomesOf(live))
    ensures MayResult(live, Done(LiveStatus(live), Reason(outs), outs))
  {
    var steps := InOrderIsReached(live, |live|);
    assert Results(Run(Launch(live), steps).collected) == live;
  }

  lemma {:induction false} SortedExists(outs: seq<Outcome>) returns (sorted: seq<Outcome>)
    ensures multiset(sorted) == multiset(outs) && SortedByOperation(sorted)
  {
    if outs == [] {
      sorted := [];
    } else {
      var front := SortedExists(outs[..|outs| - 1]);
      sorted := InsertedExists(front, outs[|outs| - 1]);
      DropLastMultiset(outs);
    }
  }

  lemma {:induction false} InsertedExists(sorted: seq<Outcome>, x: Outcome) returns (result: seq<Outcome>)
    requires SortedByOperation(sorted)
    ensures multiset(result) == multiset(sorted) + multiset{x} && SortedByOperation(result)
  {
    if sorted == [] {
      result := [x];
    } else {
      var front, last := sorted[..|sorted| - 1], sorted[|sorted| - 1];
      assert sorted == front + [last];
      if Less(x.operation, last.operation) {
        var inserted := InsertedExists(front, x);
        LastStaysLast(inserted, front, x, last);
        result := inserted + [last];
      } else {
        InsertSorted(sorted, x, []);
        assert sorted + [] == sorted && sorted + [x] + [] == sorted + [x];
        result := sorted + [x];
      }
    }
  }

  lemma LastStaysLast(inserted: seq<Outcome>, front: seq<Outcome>, x: Outcome, last: Outcome)
    requires multiset(inserted) == multiset(front) + multiset{x} && SortedByOperation(inserted)
    requires SortedByOperation(front + [last]) && Less(x.operation, last.operation)
    ensures SortedByOperation(inserted + [last])
  {
    LessTrichotomy(x.operation, last.operation);
    SameMembers(inserted, front + [x]);
    forall i | 0 <= i < |inserted| ensures !Less(last.operation, inserted[i].operation) {
      assert inserted[i] in front + [x];
      if inserted[i] in front {
        var k := IndexOf(front, inserted[i]);
        assert (front + [last])[k] == front[k] && (front + [last])[|front|] == last;
      }
    }
  }

  /** Exchanging two outcomes of one name keeps the arrangement sorted. */
  lemma ExchangeTies(outs: seq<Outcome>, i: nat, j: nat)
    requires SortedByOperation(outs) && i < |outs| && j < |outs| && outs[i].operation == outs[j].operation
    ensures var exchanged := outs[i := outs[j]][j := outs[i]];
            SortedByOperation(exchanged) && multiset(exchanged) == multiset(outs)
  {
    var exchanged := outs[i := outs[j]][j := outs[i]];
    assert forall k :: 0 <= k < |outs| ==> exchanged[k].operation == outs[k].operation;
  }

  lemma TiesAgreeRearranged(a: seq<Outcome>, b: seq<Outcome>)
    requires multiset(a) == multiset(b) && TiesAgree(a)
    ensures TiesAgree(b)
  {
    SameMembers(a, b);
    forall i, j | 0 <= i < |b| && 0 <= j < |b| && b[i].operation == b[j].operation ensures b[i] == b[j] {
      var k := IndexOf(a, b[i]);
      var l := IndexOf(a, b[j]);
    }
  }

  /** Two verdicts that differ. */
  lemma DisagreeingTiesGiveTwoResults(live: seq<OpResult>) returns (v: Verdict, v': Verdict)
    requires live != [] && !AnyFailed(live) && !TiesAgree(OutcomesOf(live))
    ensures MayResult(live, v) && MayResult(live, v') && v != v'
  {
    var outs := SortedExists(OutcomesOf(live));
    if TiesAgree(outs) {
      TiesAgreeRearranged(outs, OutcomesOf(live));
      assert false;
    }
    var i: nat, j: nat :| i < |outs| && j < |outs| && outs[i].operation == outs[j].operation && outs[i] != outs[j];
    var exchanged := outs[i := outs[j]][j := outs[i]];
    ExchangeTies(outs, i, j);
    ArrangementMayResult(live, outs);
    ArrangementMayResult(live, exchanged);
    v, v' := Done(LiveStatus(live), Reason(outs), outs), Done(LiveStatus(live), Reason(exchanged), exchanged);
    assert exchanged[j] == outs[i];
  }

  lemma AgreeingTiesGiveOneResult(live: seq<OpResult>, v: Verdict, v': Verdict)
    requires live == [] || AnyFailed(live) || TiesAgree(OutcomesOf(live))
    requires MayResult(live, v) && MayResult(live, v')
    ensures v == v'
  {
    ResultMeans(live, v);
    ResultMeans(live, v');
    if v.Done? {
      TiesAgreeRearranged(OutcomesOf(live), v.outcomes);
      SortedIsUnique(v.outcomes, v'.outcomes);
    }
  }

  /**
   * The result, with its sorted outcomes and its reason, is the same for every schedule exactly when
   * there is an error, or operations that share a name have the same outcome.
   */
  lemma ResultIsScheduleIndependentIff(live: seq<OpResult>)
    ensures (forall v, v' :: MayResult(live, v) && MayResult(live, v') ==> v == v')
            <==> live == [] || AnyFailed(live) || TiesAgree(OutcomesOf(live))
  {
    if live == [] || AnyFailed(live) || TiesAgree(OutcomesOf(live)) {
      forall v, v' | MayResult(live, v) && MayResult(live, v') ensures v == v' {
        AgreeingTiesGiveOneResult(live, v, v');
      }
    } else {
      var v, v' := DisagreeingTiesGiveTwoResults(live);
    }
  }

  const CHECK_A: Outcome := Outcome("check", false, true, "a")
  const CHECK_B: Outcome := Outcome("check", false, true, "b")

  /** The reason begins with the outcome that comes first. */
  lemma ReasonOfTwo(a: Outcome, b: Outcome)
    requires Rejects(a) && Rejects(b)
    ensures Reason([a, b]) == a.operation + ": " + a.details + "; " + b.operation + ": " + b.details
  {
    assert [a, b][..1] == [a] && [a][..0] == [];
    assert Rejects([a, b][0]);
  }

  lemma TwoChecksMayGive(a: Outcome, b: Outcome)
    requires a.operation == b.operation && Rejects(a) && Rejects(b) && multiset([a, b]) == multiset([CHECK_A, CHECK_B])
    ensures MayResult([OpResult(CHECK_A, false), OpResult(CHECK_B, false)], Done(Failed, Reason([a, b]), [a, b]))
  {
    var live := [OpResult(CHECK_A, false), OpResult(CHECK_B, false)];
    LessTrichotomy(a.operation, b.operation);
    assert OutcomesOf(live) == [CHECK_A, CHECK_B] && Rejects(live[0].outcome);
    ArrangementMayResult(live, [a, b]);
  }

  /** For instance, two failed checks of one name: the reason of the order depends on who comes first. */
  lemma SharedNamesGiveTwoReasons()
    ensures var live := [OpResult(CHECK_A, false), OpResult(CHECK_B, false)];
            && MayResult(live, Done(Failed, Reason([CHECK_A, CHECK_B]), [CHECK_A, CHECK_B]))
            && MayResult(live, Done(Failed, Reason([CHECK_B, CHECK_A]), [CHECK_B, CHECK_A]))
    ensures Reason([CHECK_A, CHECK_B]) != Reason([CHECK_B, CHECK_A])
  {
    ReasonOfTwo(CHECK_A, CHECK_B);
    ReasonOfTwo(CHECK_B, CHECK_A);
    assert Reason([CHECK_A, CHECK_B])[7] == 'a' && Reason([CHECK_B, CHECK_A])[7] == 'b';
    assert multiset([CHECK_B, CHECK_A]) == multiset([CHECK_A, CHECK_B]);
    TwoChecksMayGive(CHECK_A, CHECK_B);
    TwoChecksMayGive(CHECK_B, CHECK_A);
  }
}
