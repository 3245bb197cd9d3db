/** What the pipeline guarantees of its outbox in every run: exclusive claims, delivery, waiting and backoff. */
module OutboxGuarantees {
  import opened Domain
  import opened Ledger
  import opened Pipeline
  import opened PipelineInvariant
  import opened PipelineSteps
  import opened Guarantees
  import opened Transactions
  import Outbox
  import Relay
  import Progress = OutboxProgress

  // ---- Delivery ----

  lemma PublishedIsLogged(s: State, r: nat) returns (i: nat)
    requires Relay.Delivery(RelayOf(s)) && r < |s.db.outbox| && s.db.outbox[r].status.Published?
    ensures Readable(s, i) && RowOf(s, i) == r && s.log[i].lane.topic == s.db.outbox[r].topic
  {
    assert Relay.InLog(RelayOf(s), r);
    i :| 0 <= i < |s.log| && s.log[i].send < |s.wire| && s.wire[s.log[i].send].item.row == r;
  }

  lemma SendsWithinAttempts(s: State, r: nat)
    requires Relay.OneSendPerAttempt(RelayOf(s)) && r < |s.db.outbox|
    ensures |Relay.SendsOf(RelayOf(s), r)| <= s.db.outbox[r].attempts
  {
    Relay.SendsBoundedByAttempts(RelayOf(s), r);
  }

  lemma OnItsTopic(c: Config, run: seq<State>, steps: seq<Step>, n: nat, r: nat)
    requires IsRun(c, run, steps) && n <= |steps| && r < |run[n].db.outbox|
    ensures Relay.Delivery(RelayOf(run[n])) && IsTopicFor(run[n].db.outbox[r].event, run[n].db.outbox[r].topic)
  {
    ReachableInv(c, run, steps, n);
  }

  /** Every published row has its record in the Kafka log, on the topic of its event type, and no row was ever produced
      more often than its attempt count says. */
  lemma PublishedMeansDelivered(c: Config, run: seq<State>, steps: seq<Step>, n: nat, r: nat)
    requires IsRun(c, run, steps) && n <= |steps| && r < |run[n].db.outbox|
    ensures run[n].db.outbox[r].status.Published? ==>
              exists i: nat :: Readable(run[n], i) && RowOf(run[n], i) == r
                               && IsTopicFor(run[n].db.outbox[r].event, run[n].log[i].lane.topic)
    ensures |Relay.SendsOf(RelayOf(run[n]), r)| <= run[n].db.outbox[r].attempts
  {
    OnItsTopic(c, run, steps, n, r);
    SendsWithinAttempts(run[n], r);
    if run[n].db.outbox[r].status.Published? {
      var i := PublishedIsLogged(run[n], r);
    }
  }

  /** For any number of publishers, even of one worker name: no row is on two worklists, a row is `publishing` exactly
      while it is locked, and a completion never finds its row claimed by somebody else. */
  lemma ClaimsAreExclusive(c: Config, run: seq<State>, steps: seq<Step>, n: nat, p: nat, q: nat)
    requires IsRun(c, run, steps) && n <= |steps| && p in run[n].publishers && q in run[n].publishers
    ensures var a, b := run[n].publishers[p].worklist, run[n].publishers[q].worklist;
            forall i, j :: 0 <= i < |a| && 0 <= j < |b| && a[i].row == b[j].row ==> p == q && i == j
    ensures forall r :: 0 <= r < |run[n].db.outbox| ==>
              (run[n].db.outbox[r].status.Publishing? <==> run[n].db.outbox[r].lockedBy.Some?)
    ensures Relay.Busy(RelayOf(run[n]), p) ==> Relay.HoldsHead(RelayOf(run[n]), p)
  {
    ReachableInv(c, run, steps, n);
    var s := RelayOf(run[n]);
    if Relay.Busy(s, p) {
      Relay.CompletionIsAlwaysAccepted(s, run[n].now, p);
    }
    assert Relay.DistinctRows(s.publishers[p].worklist);
    if p != q {
      assert Relay.Disjoint(s.publishers[p].worklist, s.publishers[q].worklist);
    }
  }

  /** A `publish_batch` that has returned normally left none of its rows in `publishing` under its claim. */
  lemma NormalReturnReleasesAll(c: Config, run: seq<State>, steps: seq<Step>, n: nat, p: nat, item: Relay.Item)
    requires IsRun(c, run, steps) && n <= |steps| && p in run[n].publishers
    requires run[n].publishers[p].worklist == [] && item in run[n].publishers[p].batch
    ensures item.row < |run[n].db.outbox|
    ensures run[n].db.outbox[item.row].status.Publishing? ==> run[n].db.outbox[item.row].attempts > item.attempt
  {
    ReachableInv(c, run, steps, n);
    Relay.BatchIsOver(RelayOf(run[n]), run[n].now, p, item);
  }

  // ---- The outbox table under the whole pipeline ----

  function TableOf(s: State): Progress.Table {
    Progress.Table(s.db.outbox, s.now)
  }

  lemma AppendIsTableStep(s: State, t: State) returns (act: Progress.Action)
    requires s.now < t.now && Appends(s.db.outbox, t.db.outbox, t.now)
    ensures Progress.Step(TableOf(s), act, TableOf(t)) && !act.Claim? && !act.Fail?
  {
    if t.db.outbox == s.db.outbox {
      act := Progress.Idle;
    } else {
      var e := t.db.outbox[|s.db.outbox|].event;
      act := Progress.Insert(e, TopicOf(e));
    }
  }

  lemma RequestAppends(c: Config, s: State, now: Time, q: RequestStep, t: State)
    requires RequestEnabled(c, s, q) && t == RequestNext(c, s, now, q)
    ensures t.now == now && Appends(s.db.outbox, t.db.outbox, now)
  {
    if q.CommitSubmission? && t.db != s.db {
      assert t.db == CreateSubmission(s.db, SubmissionFor(c, s.calls[q.d]), now).db;
    }
  }

  lemma HandlerAppends(c: Config, s: State, now: Time, h: HandlerStep, t: State)
    requires TablesInv(s.db) && RunsInv(c, s) && s.now < now
    requires HandlerEnabled(c, s, now, h) && t == HandlerNext(c, s, now, h)
    ensures t.now == now && Appends(s.db.outbox, t.db.outbox, now)
  {
    if h.FinishFetch? {
      FinishFetchFrame(c, s, now, h, t);
      FetchTxKeepsTables(c, s, h.r, h.newId, now, t.db);
    } else if h.FinishExtract? {
      FinishExtractFrame(c, s, now, h, t);
      FinishTxKeepsTables(c, s, h.r, h.newId, now, t.db);
    }
  }

  predicate IsFailedCompletion(s: State, a: Step) {
    a.Relaying? && a.b.RecordFailure? && Relay.Busy(RelayOf(s), a.b.p) && s.publishers[a.b.p].head.Failing?
  }

  /** A failed completion commits no later than the retry time that it writes. */
  predicate Prompt(s: State, a: Step, now: Time) {
    IsFailedCompletion(s, a) ==>
      var pub := s.publishers[a.b.p]; now <= Outbox.RetryAt(pub.head.failedAt, pub.worklist[0].attempt)
  }

  /** A failed completion that commits within two seconds of its failure is prompt, whatever the attempt. */
  lemma TwoSecondsArePrompt(c: Config, run: seq<State>, steps: seq<Step>, n: nat, a: Step, now: Time)
    requires IsRun(c, run, steps) && n <= |steps| && IsFailedCompletion(run[n], a)
    requires now <= run[n].publishers[a.b.p].head.failedAt + 2 * SECOND
    ensures Prompt(run[n], a, now)
  {
    ReachableInv(c, run, steps, n);
    var item := run[n].publishers[a.b.p].worklist[0];
    assert Relay.Owns(RelayOf(run[n]).rows, run[n].publishers[a.b.p], item);
    Progress.DelayAtLeastTwo(item.attempt);
  }

  predicate IsClaimStep(a: Step) {
    a.Relaying? && a.b.ClaimBatch?
  }

  lemma RelayIsTableStep(s: State, now: Time, b: Relay.Step, t: State) returns (act: Progress.Action)
    requires Relay.Inv(RelayOf(s), s.now) && s.now < now && !b.Insert? && Relay.Enabled(RelayOf(s), now, b)
    requires t == WithRelay(s.(now := now), Relay.Next(RelayOf(s), now, b))
    ensures Progress.Step(TableOf(s), act, TableOf(t))
    ensures act.Claim? <==> b.ClaimBatch?
    ensures act.Claim? ==> act.batch == b.batch && act.picked == b.picked
    ensures Prompt(s, Relaying(b), now) ==> Progress.Timely(TableOf(s), act, TableOf(t))
  {
    act := Relay.StepsAreTableSteps(RelayOf(s), s.now, now, b);
    if act.Fail? {
      assert Relay.Owns(s.db.outbox, s.publishers[b.p], s.publishers[b.p].worklist[0]);
    }
  }

  lemma OtherIsTableStep(c: Config, s: State, now: Time, a: Step, t: State) returns (act: Progress.Action)
    requires TablesInv(s.db) && RunsInv(c, s) && s.now < now && !a.Relaying?
    requires Enabled(c, s, now, a) && t == Next(c, s, now, a)
    ensures Progress.Step(TableOf(s), act, TableOf(t)) && !act.Claim? && !act.Fail?
  {
    match a {
      case Requesting(q) => RequestAppends(c, s, now, q, t);
      case Handling(h) => HandlerAppends(c, s, now, h, t);
      case Looping(l) => LoopKeepsDocuments(c, s, now, l);
      case Tick =>
    }
    act := AppendIsTableStep(s, t);
  }

  /** Every step of the pipeline is a step of the outbox table, and a claim of the one is a claim of the other. */
  lemma StepIsTableStep(c: Config, s: State, now: Time, a: Step, t: State) returns (act: Progress.Action)
    requires Inv(c, s) && s.now < now && Enabled(c, s, now, a) && t == Next(c, s, now, a)
    ensures Progress.Step(TableOf(s), act, TableOf(t))
    ensures act.Claim? <==> IsClaimStep(a)
    ensures act.Claim? ==> act.batch == a.b.batch && act.picked == a.b.picked
    ensures Prompt(s, a, now) ==> Progress.Timely(TableOf(s), act, TableOf(t))
  {
    if a.Relaying? {
      act := RelayIsTableStep(s, now, a.b, t);
    } else {
      act := OtherIsTableStep(c, s, now, a, t);
    }
  }

  function Tables(run: seq<State>): (r: seq<Progress.Table>)
    ensures |r| == |run|
  {
    seq(|run|, i requires 0 <= i < |run| => TableOf(run[i]))
  }

  /** Action `a` of the outbox table is what step `k` of the run does. */
  ghost predicate Does(run: seq<State>, steps: seq<Step>, k: nat, a: Progress.Action)
    requires |run| == |steps| + 1 && k < |steps|
  {
    && Progress.Step(TableOf(run[k]), a, TableOf(run[k + 1]))
    && (a.Claim? <==> IsClaimStep(steps[k]))
    && (a.Claim? ==> a.batch == steps[k].b.batch && a.picked == steps[k].b.picked)
    && (Prompt(run[k], steps[k], run[k + 1].now) ==> Progress.Timely(TableOf(run[k]), a, TableOf(run[k + 1])))
  }

  ghost predicate DoesAt(run: seq<State>, steps: seq<Step>, acts: seq<Progress.Action>, k: nat)
    requires |run| == |steps| + 1 && |acts| <= |steps| && k < |acts|
  {
    Does(run, steps, k, acts[k])
  }

  ghost predicate Matches(run: seq<State>, steps: seq<Step>, acts: seq<Progress.Action>)
    requires |run| == |steps| + 1 && |acts| <= |steps|
  {
    forall k :: 0 <= k < |acts| ==> DoesAt(run, steps, acts, k)
  }

  lemma {:induction false} TableRun(c: Config, run: seq<State>, steps: seq<Step>, n: nat)
    returns (acts: seq<Progress.Action>)
    requires IsRun(c, run, steps) && n <= |steps|
    ensures |acts| == n && Matches(run, steps, acts)
  {
    acts := [];
    if n > 0 {
      var before := TableRun(c, run, steps, n - 1);
      var act := NextTableStep(c, run, steps, n - 1);
      acts := before + [act];
      forall k | 0 <= k < n ensures DoesAt(run, steps, acts, k) {
        if k < n - 1 {
          assert DoesAt(run, steps, before, k);
        }
      }
    }
  }

  lemma NextTableStep(c: Config, run: seq<State>, steps: seq<Step>, k: nat) returns (act: Progress.Action)
    requires IsRun(c, run, steps) && k < |steps|
    ensures Does(run, steps, k, act)
  {
    ReachableInv(c, run, steps, k);
    assert StepAt(c, run, steps, k);
    act := StepIsTableStep(c, run[k], run[k + 1].now, steps[k], run[k + 1]);
  }

  lemma TablesAreARun(run: seq<State>, steps: seq<Step>, acts: seq<Progress.Action>)
    requires |run| == |steps| + 1 && |acts| == |steps| && Matches(run, steps, acts)
    ensures Progress.IsRun(Tables(run), acts)
  {
    forall i | 0 <= i < |acts| ensures Progress.StepAt(Tables(run), acts, i) {
      assert DoesAt(run, steps, acts, i);
    }
  }

  /** The number of claims among the steps from `first` to `last`. */
  function ClaimsBetween(steps: seq<Step>, first: nat, last: nat): nat
    requires first <= last <= |steps|
    decreases last
  {
    if first == last then 0
    else ClaimsBetween(steps, first, last - 1) + (if IsClaimStep(steps[last - 1]) then 1 else 0)
  }

  lemma {:induction false} SameClaims(run: seq<State>, steps: seq<Step>, acts: seq<Progress.Action>, first: nat,
                                      last: nat)
    requires |run| == |steps| + 1 && |acts| == |steps| && first <= last <= |acts| && Matches(run, steps, acts)
    ensures Progress.Claims(acts, first, last) == ClaimsBetween(steps, first, last)
    decreases last
  {
    if first < last {
      SameClaims(run, steps, acts, first, last - 1);
      assert DoesAt(run, steps, acts, last - 1);
    }
  }

  predicate Takes(a: Step, r: nat) {
    IsClaimStep(a) && r in a.b.picked
  }

  /** Step `k` is prompt and claims, if it does, at least `b` rows. */
  ghost predicate Serves(run: seq<State>, steps: seq<Step>, k: nat, b: nat)
    requires |run| == |steps| + 1 && k < |steps|
  {
    Prompt(run[k], steps[k], run[k + 1].now) && (IsClaimStep(steps[k]) ==> steps[k].b.batch >= b)
  }

  ghost predicate AllServe(run: seq<State>, steps: seq<Step>, first: nat, b: nat)
    requires |run| == |steps| + 1
  {
    forall k :: first <= k < |steps| ==> Serves(run, steps, k, b)
  }

  lemma TablesServe(run: seq<State>, steps: seq<Step>, acts: seq<Progress.Action>, first: nat, b: nat)
    requires |run| == |steps| + 1 && |acts| == |steps| && Matches(run, steps, acts) && AllServe(run, steps, first, b)
    ensures Progress.AllServe(Tables(run), acts, first, b)
  {
    forall i | first <= i < |acts| ensures Progress.Serves(Tables(run), acts, i, b) {
      assert DoesAt(run, steps, acts, i) && Serves(run, steps, i, b);
    }
  }

  lemma TakenStep(run: seq<State>, steps: seq<Step>, acts: seq<Progress.Action>, first: nat, r: nat, b: nat)
    returns (k: nat)
    requires |run| == |steps| + 1 && |acts| == |steps| && first <= |steps| && b >= 1
    requires Matches(run, steps, acts) && AllServe(run, steps, first, b)
    requires Progress.Waits(TableOf(run[first]), r)
    requires ClaimsBetween(steps, first, |steps|) > |Progress.Queue(TableOf(run[first]), r)| / b
    ensures first <= k < |steps| && Takes(steps[k], r)
    ensures ClaimsBetween(steps, first, k + 1) <= |Progress.Queue(TableOf(run[first]), r)| / b + 1
  {
    TablesAreARun(run, steps, acts);
    TablesServe(run, steps, acts, first, b);
    SameClaims(run, steps, acts, first, |acts|);
    assert Tables(run)[first] == TableOf(run[first]);
    k := Progress.WaitingBound(Tables(run), acts, first, r, b);
    SameClaims(run, steps, acts, first, k + 1);
    assert DoesAt(run, steps, acts, k);
  }

  /** The waiting bound, in any run of the whole pipeline: a claimable row with k rows before it in the order of
      (available_at, created_at) is taken by one of the next k / b + 1 claims of at least b rows, provided failed
      completions commit no later than the retry time they write. */
  lemma WaitingBoundInRuns(c: Config, run: seq<State>, steps: seq<Step>, first: nat, r: nat, b: nat) returns (k: nat)
    requires IsRun(c, run, steps) && first <= |steps| && b >= 1 && AllServe(run, steps, first, b)
    requires r < |run[first].db.outbox| && Outbox.Claimable(run[first].db.outbox[r], run[first].now)
    requires ClaimsBetween(steps, first, |steps|) > |Progress.Queue(TableOf(run[first]), r)| / b
    ensures first <= k < |steps| && Takes(steps[k], r)
    ensures ClaimsBetween(steps, first, k + 1) <= |Progress.Queue(TableOf(run[first]), r)| / b + 1
  {
    var acts := TableRun(c, run, steps, |steps|);
    k := TakenStep(run, steps, acts, first, r, b);
  }

  /** The times at which row `r` was claimed during the first `n` steps. */
  function ClaimedAt(run: seq<State>, steps: seq<Step>, r: nat, n: nat): seq<Time>
    requires |run| == |steps| + 1 && n <= |steps|
  {
    if n == 0 then [] else
    ClaimedAt(run, steps, r, n - 1) + (if Takes(steps[n - 1], r) then [run[n].now] else [])
  }

  lemma {:induction false} SameClaimTimes(run: seq<State>, steps: seq<Step>, acts: seq<Progress.Action>, r: nat, n: nat)
    requires |run| == |steps| + 1 && |acts| == |steps| && n <= |acts| && Matches(run, steps, acts)
    ensures Progress.ClaimTimes(Tables(run), acts, r, n) == ClaimedAt(run, steps, r, n)
  {
    if n > 0 {
      SameClaimTimes(run, steps, acts, r, n - 1);
      assert DoesAt(run, steps, acts, n - 1);
    }
  }

  /** The n-th claim is at least 2^n - 2 seconds after the first for n <= 9, and 510 + 256 (n - 9) for n >= 9. */
  predicate BackedOff(times: seq<Time>, n: nat)
    requires 1 <= n <= |times|
  {
    && (n <= 9 ==> times[n - 1] >= times[0] + (Outbox.Pow2(n) - 2) * SECOND)
    && (n >= 9 ==> times[n - 1] >= times[0] + (510 + 256 * (n - 9)) * SECOND)
  }

  lemma BackoffInMatch(run: seq<State>, steps: seq<Step>, acts: seq<Progress.Action>, r: nat)
    requires |run| == |steps| + 1 && |acts| == |steps| && Matches(run, steps, acts)
    requires run[0].db.outbox == []
    ensures var times := ClaimedAt(run, steps, r, |steps|);
            forall n :: 1 <= n <= |times| ==> BackedOff(times, n)
    ensures r < |run[|steps|].db.outbox| ==>
              run[|steps|].db.outbox[r].attempts == |ClaimedAt(run, steps, r, |steps|)|
  {
    var tables, times := Tables(run), ClaimedAt(run, steps, r, |steps|);
    SameClaimTimes(run, steps, acts, r, |steps|);
    TablesAreARun(run, steps, acts);
    Progress.ClaimHistory(tables, acts, r, |steps|);
    assert tables[|steps|] == TableOf(run[|steps|]);
    forall n | 1 <= n <= |times| ensures BackedOff(times, n) {
      Progress.BackoffBound(tables, acts, r, n);
    }
  }

  /** In any run of the whole pipeline `attempt_count` is the number of claims of the row, and they back off. */
  lemma BackoffInRuns(c: Config, run: seq<State>, steps: seq<Step>, r: nat)
    requires IsRun(c, run, steps)
    ensures var times := ClaimedAt(run, steps, r, |steps|);
            forall n :: 1 <= n <= |times| ==> BackedOff(times, n)
    ensures r < |run[|steps|].db.outbox| ==>
              run[|steps|].db.outbox[r].attempts == |ClaimedAt(run, steps, r, |steps|)|
  {
    var acts := TableRun(c, run, steps, |steps|);
    BackoffInMatch(run, steps, acts, r);
  }

  lemma PublishedStays(c: Config, run: seq<State>, steps: seq<Step>, k: nat, r: nat)
    requires IsRun(c, run, steps) && k < |steps|
    requires r < |run[k].db.outbox| && run[k].db.outbox[r].status.Published?
    ensures r < |run[k + 1].db.outbox| && run[k + 1].db.outbox[r] == run[k].db.outbox[r]
  {
    var act := NextTableStep(c, run, steps, k);
  }

  /** A published row never changes again. */
  lemma {:induction false} PublishedForever(c: Config, run: seq<State>, steps: seq<Step>, i: nat, j: nat, r: nat)
    requires IsRun(c, run, steps) && i <= j <= |steps|
    requires r < |run[i].db.outbox| && run[i].db.outbox[r].status.Published?
    ensures r < |run[j].db.outbox| && run[j].db.outbox[r] == run[i].db.outbox[r]
    decreases j
  {
    if i < j {
      PublishedForever(c, run, steps, i, j - 1, r);
      PublishedStays(c, run, steps, j - 1, r);
    }
  }
}
