/** Exactly how long a failed completion may take for the waiting bound to hold in every run of the pipeline. */
module BoundExact {
  import opened Domain
  import opened SourceKeys
  import opened Pipeline
  import opened Ledger
  import opened Guarantees
  import opened OutboxGuarantees
  import opened Reachability
  import opened Samples
  import Outbox
  import Relay
  import Progress = OutboxProgress

  /** If step `k` is a failed completion, it commits at most `limit` after the failure. */
  ghost predicate CommitsWithin(run: seq<State>, steps: seq<Step>, k: nat, limit: Time)
    requires |run| == |steps| + 1 && k < |steps|
  {
    IsFailedCompletion(run[k], steps[k]) ==> run[k + 1].now <= run[k].publishers[steps[k].b.p].head.failedAt + limit
  }

  ghost predicate IsRunWithin(c: Config, run: seq<State>, steps: seq<Step>, limit: Time) {
    IsRun(c, run, steps) && forall k :: 0 <= k < |steps| ==> CommitsWithin(run, steps, k, limit)
  }

  ghost predicate TakenInTime(run: seq<State>, steps: seq<Step>, first: nat, r: nat, b: nat)
    requires |run| == |steps| + 1 && first <= |steps| && r < |run[first].db.outbox| && b >= 1
  {
    exists k :: first <= k < |steps| && Takes(steps[k], r)
                && ClaimsBetween(steps, first, k + 1) <= |Progress.Queue(TableOf(run[first]), r)| / b + 1
  }

  ghost predicate MeetsBound(run: seq<State>, steps: seq<Step>)
    requires |run| == |steps| + 1
  {
    forall first: nat, r: nat, b: nat ::
      && first <= |steps| && b >= 1
      && (forall k :: first <= k < |steps| && IsClaimStep(steps[k]) ==> steps[k].b.batch >= b)
      && Progress.Waits(TableOf(run[first]), r)
      && ClaimsBetween(steps, first, |steps|) > |Progress.Queue(TableOf(run[first]), r)| / b
      ==> TakenInTime(run, steps, first, r, b)
  }

  // ---- Two seconds are enough ----

  lemma WithinTwoSecondsServes(c: Config, run: seq<State>, steps: seq<Step>, limit: Time, k: nat, b: nat)
    requires IsRunWithin(c, run, steps, limit) && limit <= 2 * SECOND && k < |steps|
    requires IsClaimStep(steps[k]) ==> steps[k].b.batch >= b
    ensures Serves(run, steps, k, b)
  {
    assert CommitsWithin(run, steps, k, limit);
    if IsFailedCompletion(run[k], steps[k]) {
      TwoSecondsArePrompt(c, run, steps, k, steps[k], run[k + 1].now);
    }
  }

  lemma WithinTwoSecondsMeetsBound(c: Config, run: seq<State>, steps: seq<Step>, limit: Time)
    requires IsRunWithin(c, run, steps, limit) && limit <= 2 * SECOND
    ensures MeetsBound(run, steps)
  {
    forall first: nat, r: nat, b: nat |
      && first <= |steps| && b >= 1
      && (forall k :: first <= k < |steps| && IsClaimStep(steps[k]) ==> steps[k].b.batch >= b)
      && Progress.Waits(TableOf(run[first]), r)
      && ClaimsBetween(steps, first, |steps|) > |Progress.Queue(TableOf(run[first]), r)| / b
      ensures TakenInTime(run, steps, first, r, b)
    {
      forall k | first <= k < |steps| ensures Serves(run, steps, k, b) {
        WithinTwoSecondsServes(c, run, steps, limit, k, b);
      }
      var k := WaitingBoundInRuns(c, run, steps, first, r, b);
    }
  }

  // ---- A row that failed once can be told ----

  predicate Retried(rows: seq<Outbox.Row>, r: nat) {
    r < |rows| && rows[r].attempts >= 1 && (rows[r].status.Failed? || rows[r].attempts >= 2)
  }

  lemma RetriedStays(s: Progress.Table, a: Progress.Action, t: Progress.Table, r: nat)
    requires Progress.Step(s, a, t) && Retried(s.rows, r)
    ensures Retried(t.rows, r)
  {
    if a.Claim? {
      assert t.rows[r] == if r in a.picked then Outbox.Lock(s.rows[r], a.worker, t.now) else s.rows[r];
    }
  }

  lemma {:induction false} RetriedInRuns(c: Config, run: seq<State>, steps: seq<Step>, i: nat, j: nat, r: nat)
    requires IsRun(c, run, steps) && i <= j <= |steps| && Retried(run[i].db.outbox, r)
    ensures Retried(run[j].db.outbox, r)
    decreases j
  {
    if i < j {
      RetriedInRuns(c, run, steps, i, j - 1, r);
      var act := NextTableStep(c, run, steps, j - 1);
      RetriedStays(TableOf(run[j - 1]), act, TableOf(run[j]), r);
    }
  }

  lemma FailureIsRetried(s: Relay.State, was: Time, now: Time, p: nat)
    requires Relay.Inv(s, was) && Relay.Enabled(s, now, Relay.RecordFailure(p))
    ensures Retried(Relay.Next(s, now, Relay.RecordFailure(p)).rows, s.publishers[p].worklist[0].row)
  {
    assert Relay.Owns(s.rows, s.publishers[p], s.publishers[p].worklist[0]);
  }

  lemma FailedStepIsRetried(c: Config, run: seq<State>, steps: seq<Step>, k: nat) returns (r: nat)
    requires IsRun(c, run, steps) && k < |steps| && IsFailedCompletion(run[k], steps[k])
    ensures Retried(run[k + 1].db.outbox, r)
  {
    ReachableInv(c, run, steps, k);
    assert StepAt(c, run, steps, k);
    r := run[k].publishers[steps[k].b.p].worklist[0].row;
    FailureIsRetried(RelayOf(run[k]), run[k].now, run[k + 1].now, steps[k].b.p);
  }

  /** A run in whose last state no row was retried has no failed completion. */
  lemma NoFailure(c: Config, run: seq<State>, steps: seq<Step>, k: nat)
    requires IsRun(c, run, steps) && k < |steps| && forall r :: !Retried(run[|steps|].db.outbox, r)
    ensures !IsFailedCompletion(run[k], steps[k])
  {
    if IsFailedCompletion(run[k], steps[k]) {
      var r := FailedStepIsRetried(c, run, steps, k);
      RetriedInRuns(c, run, steps, k + 1, |steps|, r);
    }
  }

  // ---- The run that misses the bound ----

  const RETRY: Time := 6 + 2 * SECOND

  /** The first row was claimed at 5 and failed at 6; the second was stored when the retry of the first was due. */
  ghost predicate IsStalled(c: Config, s: State) {
    && s.now == RETRY && s.publishers == map[0 := Holding(ITEM, Relay.Failing(6))]
    && s.db.outbox == [Outbox.Lock(SubmittedRow(c, '1', 3), "w", 5), SubmittedRow(c, '4', RETRY)]
  }

  lemma FirstFails(c: Config, may: Converter) returns (s: State)
    requires IsBucket(c.bucket) && c.slots >= 1
    ensures Reaches(c, may, TwoTenants(), s)
    ensures s.now == 6 && s.db.outbox == [Outbox.Lock(SubmittedRow(c, '1', 3), "w", 5)]
    ensures s.publishers == map[0 := Holding(ITEM, Relay.Failing(6))] && IsNewTenant(s, Uuid('4'))
  {
    var claimed := ClaimedReaches(c, may, {Uuid('1'), Uuid('4')});
    s := claimed.(now := 6, publishers := map[0 := Holding(ITEM, Relay.Failing(6))]);
    assert claimed.publishers[0 := Holding(ITEM, Relay.Failing(6))] == s.publishers;
    RelayReaches(c, may, TwoTenants(), claimed, Relay.CannotProduce(0), s);
    assert Uuid('1')[0] == '1' && Uuid('4')[0] == '4';
    assert forall d :: d in s.db.documents ==> d in s.db.documents.Keys;
    assert forall v :: v in s.db.versions ==> v in s.db.versions.Keys;
  }

  lemma SecondIsStored(c: Config, s: State)
    requires s.now == RETRY - 3 && s.db.outbox == [Outbox.Lock(SubmittedRow(c, '1', 3), "w", 5)]
    requires s.publishers == map[0 := Holding(ITEM, Relay.Failing(6))] && IsNewTenant(s, Uuid('4'))
    ensures RequestEnabled(c, s, Receive(SampleCall('4', [])))
    ensures !Violates(s.db, SubmissionFor(c, SampleCall('4', [])))
    ensures IsStalled(c, AfterSubmission(c, s, SampleCall('4', [])))
  {
    SampleCanSubmit(c, s, '4', []);
  }

  lemma StalledReaches(c: Config, may: Converter) returns (s: State)
    requires IsBucket(c.bucket) && c.slots >= 1
    ensures Reaches(c, may, TwoTenants(), s) && IsStalled(c, s)
  {
    var failed := FirstFails(c, may);
    var later := failed.(now := RETRY - 3);
    TickReaches(c, may, TwoTenants(), failed, later.now);
    SecondIsStored(c, later);
    SubmissionReaches(c, may, TwoTenants(), later, SampleCall('4', []));
    s := AfterSubmission(c, later, SampleCall('4', []));
  }

  function LateRow(c: Config): Outbox.Row {
    Outbox.Complete(Outbox.Lock(SubmittedRow(c, '1', 3), "w", 5), false, Some(RETRY))
  }

  /** A microsecond later the failed completion commits, and puts its row first. */
  function Failed(c: Config, s: State): State {
    s.(now := RETRY + 1, db := s.db.(outbox := [LateRow(c), SubmittedRow(c, '4', RETRY)]),
       publishers := map[0 := Relay.Publisher("w", [ITEM], [], Relay.Waiting, {ITEM})])
  }

  /** The next claim of one row passes the second over. */
  function Reclaimed(c: Config, s: State): State {
    Failed(c, s).(now := RETRY + 2,
      db := s.db.(outbox := [Outbox.Lock(LateRow(c), "w", RETRY + 2), SubmittedRow(c, '4', RETRY)]),
      publishers := map[0 := Holding(Relay.Item(0, 2), Relay.Waiting)])
  }

  const FAIL := Relaying(Relay.RecordFailure(0))
  const CLAIM := Relaying(Relay.ClaimBatch(0, 1, [0]))

  lemma FailureMoves(c: Config, s: State)
    requires IsStalled(c, s)
    ensures Moves(c, s, FAIL, Failed(c, s))
  {
    assert Outbox.Pow2(1) == 2 * Outbox.Pow2(0) == 2;
    assert Outbox.RetryAt(6, 1) == RETRY;
    assert [ITEM][1..] == [] && {} + {ITEM} == {ITEM};
    assert s.db.outbox[0 := LateRow(c)] == Failed(c, s).db.outbox;
    assert Relay.Next(RelayOf(s), RETRY + 1, Relay.RecordFailure(0)).publishers == Failed(c, s).publishers;
  }

  lemma LateRowIsClaim(c: Config)
    ensures var rows := [LateRow(c), SubmittedRow(c, '4', RETRY)];
            && Outbox.IsClaim(rows, RETRY + 2, 1, [0])
            && Outbox.Locked(rows, "w", RETRY + 2, [0])
               == [Outbox.Lock(LateRow(c), "w", RETRY + 2), SubmittedRow(c, '4', RETRY)]
            && Relay.Claimed(rows, [0]) == [Relay.Item(0, 2)]
  {
    var rows := [LateRow(c), SubmittedRow(c, '4', RETRY)];
    assert IsFirst(rows, RETRY + 1, 0);
    FirstRowIsClaim(rows, RETRY + 1, 0);
  }

  lemma ReclaimIsNext(c: Config, s: State)
    ensures var u, v := Failed(c, s), Reclaimed(c, s);
            && Relay.Enabled(RelayOf(u), v.now, Relay.ClaimBatch(0, 1, [0]))
            && v == WithRelay(u.(now := v.now), Relay.Next(RelayOf(u), v.now, Relay.ClaimBatch(0, 1, [0])))
  {
    var u, v := Failed(c, s), Reclaimed(c, s);
    LateRowIsClaim(c);
    Relay.ClaimNext(RelayOf(u), v.now, 0, 1, [0]);
    assert u.publishers[0 := Holding(Relay.Item(0, 2), Relay.Waiting)] == v.publishers;
  }

  lemma ReclaimMoves(c: Config, s: State)
    ensures Moves(c, Failed(c, s), CLAIM, Reclaimed(c, s))
  {
    ReclaimIsNext(c, s);
    RelayMoves(c, Failed(c, s), RETRY + 2, Relay.ClaimBatch(0, 1, [0]), Reclaimed(c, s));
  }

  lemma NotRetriedYet(c: Config, s: State)
    requires IsStalled(c, s)
    ensures forall r :: !Retried(s.db.outbox, r)
  {
  }

  lemma TailCommitsInTime(c: Config, run: seq<State>, steps: seq<Step>, limit: Time, k: nat)
    requires IsRun(c, run, steps) && IsStalled(c, run[|steps|]) && limit > 2 * SECOND && k <= |steps| + 1
    ensures var s := run[|steps|];
            CommitsWithin(run + [Failed(c, s)] + [Reclaimed(c, s)], steps + [FAIL] + [CLAIM], k, limit)
  {
    if k < |steps| {
      NotRetriedYet(c, run[|steps|]);
      NoFailure(c, run, steps, k);
    }
  }

  lemma TailIsRun(c: Config, run: seq<State>, steps: seq<Step>)
    requires IsRun(c, run, steps) && IsStalled(c, run[|steps|])
    ensures var s := run[|steps|]; IsRun(c, run + [Failed(c, s)] + [Reclaimed(c, s)], steps + [FAIL] + [CLAIM])
  {
    var s := run[|steps|];
    FailureMoves(c, s);
    ReclaimMoves(c, s);
    Extend(c, run, steps, FAIL, Failed(c, s));
    Extend(c, run + [Failed(c, s)], steps + [FAIL], CLAIM, Reclaimed(c, s));
  }

  /** The run goes on by the two steps. */
  lemma StalledGoesOn(c: Config, run: seq<State>, steps: seq<Step>, limit: Time)
    returns (more: seq<State>, moreSteps: seq<Step>)
    requires IsRun(c, run, steps) && IsStalled(c, run[|steps|]) && limit > 2 * SECOND
    ensures var s := run[|steps|];
            more == run + [Failed(c, s)] + [Reclaimed(c, s)] && moreSteps == steps + [FAIL] + [CLAIM]
    ensures IsRunWithin(c, more, moreSteps, limit)
  {
    var s := run[|steps|];
    more, moreSteps := run + [Failed(c, s)] + [Reclaimed(c, s)], steps + [FAIL] + [CLAIM];
    TailIsRun(c, run, steps);
    forall k | 0 <= k < |moreSteps| ensures CommitsWithin(more, moreSteps, k, limit) {
      TailCommitsInTime(c, run, steps, limit, k);
    }
  }

  lemma StalledMissesBound(c: Config, run: seq<State>, steps: seq<Step>)
    requires |run| == |steps| + 1 && |steps| >= 2 && steps[|steps| - 2] == FAIL && steps[|steps| - 1] == CLAIM
    requires IsStalled(c, run[|steps| - 2])
    ensures !MeetsBound(run, steps)
  {
    var first, s := |steps| - 2, run[|steps| - 2];
    assert Progress.Queue(TableOf(s), 1) == {};
    assert ClaimsBetween(steps, first, first + 1) == ClaimsBetween(steps, first, first) == 0;
    assert ClaimsBetween(steps, first, |steps|) == 1;
    assert Progress.Waits(TableOf(s), 1);
    assert forall k :: first <= k < |steps| ==> !Takes(steps[k], 1);
    assert !TakenInTime(run, steps, first, 1, 1);
  }

  ghost predicate BoundAlwaysMet(c: Config, limit: Time) {
    forall run: seq<State>, steps: seq<Step> :: IsRunWithin(c, run, steps, limit) ==> MeetsBound(run, steps)
  }

  /** The waiting bound holds in every run of the pipeline in which failed completions commit at most `limit` after the
      failure, exactly when `limit` is no more than two seconds. */
  lemma BoundIffWithinTwoSeconds(c: Config, limit: Time)
    requires IsBucket(c.bucket) && c.slots >= 1
    ensures BoundAlwaysMet(c, limit) <==> limit <= 2 * SECOND
  {
    if limit <= 2 * SECOND {
      forall run: seq<State>, steps: seq<Step> | IsRunWithin(c, run, steps, limit) ensures MeetsBound(run, steps) {
        WithinTwoSecondsMeetsBound(c, run, steps, limit);
      }
    } else {
      var may: Converter := (content, conversion) => true;
      var s := StalledReaches(c, may);
      var run, steps := RunTo(c, may, TwoTenants(), s);
      run, steps := StalledGoesOn(c, run, steps, limit);
      StalledMissesBound(c, run, steps);
    }
  }
}
