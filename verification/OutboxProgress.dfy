/** Runs of the outbox table under any number of publishers: the waiting bound and the retry backoff. */
module OutboxProgress {
  import opened Basics
  import opened Domain
  import opened Outbox

  datatype Table = Table(rows: seq<Row>, now: Time)

  datatype Action =
    | Insert(event: Event, topic: Topic)
    | Claim(worker: string, batch: nat, picked: seq<nat>)
    | Succeed(id: nat, worker: string)
    | Fail(id: nat, worker: string, failedAt: Time)
    | Idle

  /** One committed transaction (or the passage of time). A failed completion carries the retry time that its
      publisher computed at `failedAt`, which is after the claim but may be long before the commit. */
  ghost predicate Step(s: Table, a: Action, t: Table) {
    && s.now < t.now
    && match a
       case Insert(e, topic) => t.rows == s.rows + [NewRow(e, topic, t.now)]
       case Claim(w, batch, picked) =>
         && 1 <= batch <= MAX_BATCH
         && IsClaim(s.rows, t.now, batch, picked)
         && t.rows == Locked(s.rows, w, t.now, picked)
       case Succeed(id, w) =>
         && HeldBy(s.rows, id, w)
         && t.rows == s.rows[id := Complete(s.rows[id], true, None)]
       case Fail(id, w, failedAt) =>
         && HeldBy(s.rows, id, w)
         && s.rows[id].lockedAt.Some?
         && s.rows[id].lockedAt.value <= failedAt <= t.now
         && t.rows == s.rows[id := Complete(s.rows[id], false, Some(RetryAt(failedAt, s.rows[id].attempts)))]
       case Idle => t.rows == s.rows
  }

  ghost predicate StepAt(run: seq<Table>, acts: seq<Action>, i: nat)
    requires |run| == |acts| + 1 && i < |acts|
  {
    Step(run[i], acts[i], run[i + 1])
  }

  ghost predicate IsRun(run: seq<Table>, acts: seq<Action>) {
    |run| == |acts| + 1 && forall i :: 0 <= i < |acts| ==> StepAt(run, acts, i)
  }

  /** A failed completion commits no later than the retry time it writes. */
  ghost predicate Timely(s: Table, a: Action, t: Table) {
    a.Fail? && a.id < |s.rows| ==> t.now <= RetryAt(a.failedAt, s.rows[a.id].attempts)
  }

  // ---- Waiting bound ----

  /** The claimable rows that may be served before row `t`: all that `t` is not strictly ahead of. */
  ghost function Queue(s: Table, t: nat): set<nat>
    requires t < |s.rows|
  {
    set j: nat | j < |s.rows| && Claimable(s.rows[j], s.now) && j != t && !Ahead(s.rows[t], s.rows[j])
  }

  /** How many of the actions from `first` to `last` are claims. */
  function Claims(acts: seq<Action>, first: nat, last: nat): nat
    requires first <= last <= |acts|
    decreases last
  {
    if first == last then 0 else Claims(acts, first, last - 1) + (if acts[last - 1].Claim? then 1 else 0)
  }

  predicate Picks(a: Action, t: nat) {
    a.Claim? && t in a.picked
  }

  /** Nothing but a claim changes who may be served before a waiting row, and every claim that leaves the row
      waiting removes a full batch of those. */
  lemma QueueShrinks(s: Table, a: Action, u: Table, t: nat)
    requires Step(s, a, u) && Timely(s, a, u)
    requires t < |s.rows| && Claimable(s.rows[t], s.now) && !Picks(a, t)
    ensures t < |u.rows| && u.rows[t] == s.rows[t] && Claimable(u.rows[t], u.now)
    ensures a.Claim? ==> |Queue(u, t)| + a.batch <= |Queue(s, t)|
    ensures |Queue(u, t)| <= |Queue(s, t)|
  {
    if a.Claim? {
      PickedWereQueued(s, u.now, a.batch, a.picked, t);
      ClaimTakesFromQueue(s, a.worker, a.picked, u, t);
    } else {
      forall j | j in Queue(u, t) ensures j in Queue(s, t) {
        if a.Insert? && j == |s.rows| {
          assert false;
        }
      }
      SubsetSize(Queue(u, t), Queue(s, t));
    }
  }

  lemma ClaimTakesFromQueue(s: Table, worker: string, picked: seq<nat>, u: Table, t: nat)
    requires s.now < u.now && Distinct(picked) && u.rows == Locked(s.rows, worker, u.now, picked)
    requires t < |s.rows| && Claimable(s.rows[t], s.now) && t !in picked
    requires Elements(picked) <= Queue(s, t)
    ensures |Queue(u, t)| + |picked| <= |Queue(s, t)|
  {
    DistinctSize(picked);
    forall j | j in Queue(u, t) ensures j in Queue(s, t) - Elements(picked) {
      assert u.rows[j] == if j in picked then Lock(s.rows[j], worker, u.now) else s.rows[j];
    }
    SubsetSize(Queue(u, t), Queue(s, t) - Elements(picked));
  }

  lemma PickedWereQueued(s: Table, now: Time, batch: nat, picked: seq<nat>, t: nat)
    requires s.now < now && IsClaim(s.rows, now, batch, picked)
    requires t < |s.rows| && Claimable(s.rows[t], s.now) && t !in picked
    ensures |picked| == batch
    ensures Elements(picked) <= Queue(s, t)
  {
    assert Claimable(s.rows[t], now);
    forall i | i in picked ensures i in Queue(s, t) {
      assert !Ahead(s.rows[t], s.rows[i]);
    }
  }

  /** Action `i` is timely and claims, if it does, at least `b` rows. */
  ghost predicate Serves(run: seq<Table>, acts: seq<Action>, i: nat, b: nat)
    requires |run| == |acts| + 1 && i < |acts|
  {
    Timely(run[i], acts[i], run[i + 1]) && (acts[i].Claim? ==> acts[i].batch >= b)
  }

  ghost predicate AllServe(run: seq<Table>, acts: seq<Action>, first: nat, b: nat)
    requires |run| == |acts| + 1
  {
    forall i :: first <= i < |acts| ==> Serves(run, acts, i, b)
  }

  ghost predicate Waits(s: Table, t: nat) {
    t < |s.rows| && Claimable(s.rows[t], s.now)
  }

  function Times(b: nat, n: nat): nat {
    if n == 0 then 0 else Times(b, n - 1) + b
  }

  lemma {:induction false} TimesIsProduct(b: nat, n: nat)
    ensures Times(b, n) == b * n
  {
    if n > 0 {
      TimesIsProduct(b, n - 1);
      assert b * n == b * (n - 1) + b;
    }
  }

  lemma PassedOverOnce(run: seq<Table>, acts: seq<Action>, first: nat, i: nat, t: nat, b: nat)
    requires IsRun(run, acts) && first <= i < |acts| && AllServe(run, acts, first, b)
    requires Waits(run[i], t) && !Picks(acts[i], t)
    ensures Waits(run[i + 1], t)
    ensures |Queue(run[i + 1], t)| + (if acts[i].Claim? then b else 0) <= |Queue(run[i], t)|
  {
    assert StepAt(run, acts, i) && Serves(run, acts, i, b);
    QueueShrinks(run[i], acts[i], run[i + 1], t);
  }

  /** While a claimable row is passed over, each claim of at least `b` rows uses up `b` of the rows ahead. */
  lemma {:induction false} PassedOver(run: seq<Table>, acts: seq<Action>, first: nat, t: nat, b: nat, n: nat)
    requires IsRun(run, acts) && first <= n <= |acts| && AllServe(run, acts, first, b)
    requires forall i :: first <= i < n ==> !Picks(acts[i], t)
    requires Waits(run[first], t)
    ensures Waits(run[n], t)
    ensures |Queue(run[n], t)| + Times(b, Claims(acts, first, n)) <= |Queue(run[first], t)|
    decreases n
  {
    if n > first {
      PassedOver(run, acts, first, t, b, n - 1);
      PassedOverOnce(run, acts, first, n - 1, t, b);
    }
  }

  /** A claimable row with k rows ahead is claimed within k / b + 1 further claims of at least b rows each. */
  lemma WaitingBound(run: seq<Table>, acts: seq<Action>, first: nat, t: nat, b: nat) returns (i: nat)
    requires b >= 1 && IsRun(run, acts) && first <= |acts| && AllServe(run, acts, first, b)
    requires Waits(run[first], t)
    requires Claims(acts, first, |acts|) > |Queue(run[first], t)| / b
    ensures first <= i < |acts| && Picks(acts[i], t)
    ensures Claims(acts, first, i + 1) <= |Queue(run[first], t)| / b + 1
  {
    i := first;
    while i < |acts| && !Picks(acts[i], t)
      invariant first <= i <= |acts|
      invariant forall j :: first <= j < i ==> !Picks(acts[j], t)
    {
      i := i + 1;
    }
    PassedOver(run, acts, first, t, b, i);
    AtMostQuotient(b, Claims(acts, first, i), |Queue(run[first], t)|);
  }

  lemma AtMostQuotient(b: nat, n: nat, k: nat)
    requires b >= 1 && Times(b, n) <= k
    ensures n <= k / b
  {
    TimesIsProduct(b, n);
    assert k == b * (k / b) + k % b;
    assert b * n < b * (k / b + 1);
  }

  // ---- Backoff ----

  /** The times at which row `t` was claimed during the first `n` actions. */
  function ClaimTimes(run: seq<Table>, acts: seq<Action>, t: nat, n: nat): seq<Time>
    requires |run| == |acts| + 1 && n <= |acts|
  {
    if n == 0 then [] else
    ClaimTimes(run, acts, t, n - 1) + (if Picks(acts[n - 1], t) then [run[n].now] else [])
  }

  /** Seconds of retry delay between the first and the n-th claim. */
  function Backoff(n: nat): nat {
    if n <= 1 then 0 else Backoff(n - 1) + RetrySeconds(n - 1)
  }

  ghost predicate Spaced(times: seq<Time>) {
    forall i :: 0 <= i < |times| ==> times[i] >= times[0] + Backoff(i + 1) * SECOND
  }

  /** What the columns of a row say about its past claims. */
  ghost predicate History(r: Row, times: seq<Time>) {
    && r.attempts == |times|
    && (r.status.Pending? <==> times == [])
    && (r.status.Publishing? ==> r.lockedAt == Some(times[|times| - 1]))
    && (r.status.Failed? ==> r.availableAt >= times[|times| - 1] + RetrySeconds(|times|) * SECOND)
    && Spaced(times)
  }

  ghost predicate Tracks(s: Table, t: nat, times: seq<Time>) {
    if t < |s.rows| then History(s.rows[t], times) else times == []
  }

  lemma SpacedOneMore(times: seq<Time>, now: Time)
    requires Spaced(times)
    requires times != [] ==> now >= times[|times| - 1] + RetrySeconds(|times|) * SECOND
    ensures Spaced(times + [now])
  {
    var all := times + [now];
    forall i | 0 <= i < |all| ensures all[i] >= all[0] + Backoff(i + 1) * SECOND {
      if 0 < i == |times| {
        assert times[i - 1] >= times[0] + Backoff(i) * SECOND;
      }
    }
  }

  lemma ClaimIsRecorded(r: Row, times: seq<Time>, worker: string, now: Time)
    requires History(r, times) && Claimable(r, now)
    ensures History(Lock(r, worker, now), times + [now])
  {
    SpacedOneMore(times, now);
  }

  lemma CompletionIsRecorded(r: Row, times: seq<Time>, failedAt: Time)
    requires History(r, times) && r.status.Publishing?
    ensures History(Complete(r, true, None), times)
    ensures r.lockedAt.value <= failedAt
            ==> History(Complete(r, false, Some(RetryAt(failedAt, r.attempts))), times)
  {}

  lemma HistoryStep(s: Table, a: Action, u: Table, t: nat, times: seq<Time>)
    requires Step(s, a, u) && Tracks(s, t, times)
    ensures Tracks(u, t, if Picks(a, t) then times + [u.now] else times)
  {
    if t >= |s.rows| {
    } else if Picks(a, t) {
      ClaimIsRecorded(s.rows[t], times, a.worker, u.now);
    } else if a.Succeed? && a.id == t {
      CompletionIsRecorded(s.rows[t], times, u.now);
    } else if a.Fail? && a.id == t {
      CompletionIsRecorded(s.rows[t], times, a.failedAt);
    } else {
      assert u.rows[t] == s.rows[t];
    }
  }

  /** Over a run that starts before the row exists, `attempt_count` is the number of its claims, and the n-th
      claim comes at least the sum of the first n - 1 retry delays after the first. */
  lemma {:induction false} ClaimHistory(run: seq<Table>, acts: seq<Action>, t: nat, n: nat)
    requires IsRun(run, acts) && n <= |acts| && t >= |run[0].rows|
    ensures Tracks(run[n], t, ClaimTimes(run, acts, t, n))
  {
    if n > 0 {
      ClaimHistory(run, acts, t, n - 1);
      assert StepAt(run, acts, n - 1);
      HistoryStep(run[n - 1], acts[n - 1], run[n], t, ClaimTimes(run, acts, t, n - 1));
    }
  }

  lemma {:induction false} BackoffClosedForm(n: nat)
    requires n >= 1
    ensures n <= 9 ==> Backoff(n) == Pow2(n) - 2
    ensures n >= 9 ==> Backoff(n) == 510 + 256 * (n - 9)
  {
    PowersOfTwo();
    if n > 1 {
      BackoffClosedForm(n - 1);
      DelayIsUncapped(n - 1);
    }
  }

  lemma PowersOfTwo()
    ensures Pow2(0) == 1 && Pow2(1) == 2 && Pow2(2) == 4 && Pow2(3) == 8 && Pow2(4) == 16 && Pow2(5) == 32
    ensures Pow2(6) == 64 && Pow2(7) == 128 && Pow2(8) == 256 && Pow2(9) == 512
  {
    assert Pow2(3) == 8;
    assert Pow2(6) == 64;
  }

  /** The 300 second cap never binds: every delay is 2^min(k, 8). */
  lemma DelayIsUncapped(k: nat)
    ensures RetrySeconds(k) == Pow2(Min(k, 8)) <= 256
  {
    PowersOfTwo();
    var m := Min(k, 8);
    assert m == 0 || m == 1 || m == 2 || m == 3 || m == 4 || m == 5 || m == 6 || m == 7 || m == 8;
  }

  /** The retry time in microseconds after each number of attempts. */
  lemma RetryTimes(failedAt: Time, attempts: nat)
    ensures RetryAt(failedAt, attempts) - failedAt
            == 1_000_000 * if attempts >= 8 then 256 else [1, 2, 4, 8, 16, 32, 64, 128][attempts]
  {
    PowersOfTwo();
    DelayIsUncapped(attempts);
  }

  /** The n-th claim of a row is at least 2^n - 2 seconds after its first for n <= 9, and at least
      510 + 256 (n - 9) seconds after it for n >= 9. */
  lemma BackoffBound(run: seq<Table>, acts: seq<Action>, t: nat, n: nat)
    requires IsRun(run, acts) && t >= |run[0].rows|
    requires 1 <= n <= |ClaimTimes(run, acts, t, |acts|)|
    ensures var times := ClaimTimes(run, acts, t, |acts|);
            && (n <= 9 ==> times[n - 1] >= times[0] + (Pow2(n) - 2) * SECOND)
            && (n >= 9 ==> times[n - 1] >= times[0] + (510 + 256 * (n - 9)) * SECOND)
  {
    ClaimHistory(run, acts, t, |acts|);
    BackoffClosedForm(n);
  }

  // ---- How long a failed completion may take ----

  /** A failed completion lands behind every row that already waits exactly when it commits no later than the retry
      time it writes. */
  lemma OvertakingCondition(r: Row, retryAt: Time, now: Time)
    ensures (forall t: Row, before: Time :: before < now && Claimable(t, before)
                                            ==> Ahead(t, Complete(r, false, Some(retryAt)))) <==> now <= retryAt
  {
    if retryAt < now {
      var t := r.(status := Pending, availableAt := now - 1);
      assert Claimable(t, now - 1) && !Ahead(t, Complete(r, false, Some(retryAt)));
    }
  }

  ghost predicate CommitsWithin(run: seq<Table>, acts: seq<Action>, i: nat, limit: Time)
    requires |run| == |acts| + 1 && i < |acts|
  {
    acts[i].Fail? ==> run[i + 1].now <= acts[i].failedAt + limit
  }

  /** A run from the empty table in which every failed completion commits at most `limit` after its failure. */
  ghost predicate IsRunWithin(run: seq<Table>, acts: seq<Action>, limit: Time) {
    && IsRun(run, acts)
    && run[0].rows == []
    && forall i :: 0 <= i < |acts| ==> CommitsWithin(run, acts, i, limit)
  }

  ghost predicate TakenInTime(run: seq<Table>, acts: seq<Action>, first: nat, t: nat, b: nat)
    requires |run| == |acts| + 1 && first <= |acts| && t < |run[first].rows| && b >= 1
  {
    exists i :: first <= i < |acts| && Picks(acts[i], t)
                && Claims(acts, first, i + 1) <= |Queue(run[first], t)| / b + 1
  }

  /** From any moment of the run on, claims of at least `b` rows serve each waiting row in time, if enough of them
      follow. */
  ghost predicate MeetsBound(run: seq<Table>, acts: seq<Action>)
    requires |run| == |acts| + 1
  {
    forall first: nat, t: nat, b: nat ::
      && first <= |acts| && b >= 1
      && (forall i :: first <= i < |acts| && acts[i].Claim? ==> acts[i].batch >= b)
      && Waits(run[first], t)
      && Claims(acts, first, |acts|) > |Queue(run[first], t)| / b
      ==> TakenInTime(run, acts, first, t, b)
  }

  /** The first retry delay is two seconds and no later one is shorter. */
  lemma DelayAtLeastTwo(attempts: nat)
    requires attempts >= 1
    ensures RetrySeconds(attempts) >= 2
  {
    DelayIsUncapped(attempts);
    assert Pow2(Min(attempts, 8)) == 2 * Pow2(Min(attempts, 8) - 1);
  }

  lemma WithinTwoSecondsIsTimely(run: seq<Table>, acts: seq<Action>, limit: Time, i: nat)
    requires IsRunWithin(run, acts, limit) && limit <= 2 * SECOND && i < |acts|
    ensures Timely(run[i], acts[i], run[i + 1])
  {
    assert StepAt(run, acts, i) && CommitsWithin(run, acts, i, limit);
    if acts[i].Fail? {
      ClaimHistory(run, acts, acts[i].id, i);
      DelayAtLeastTwo(run[i].rows[acts[i].id].attempts);
    }
  }

  lemma WithinTwoSecondsMeetsBound(run: seq<Table>, acts: seq<Action>, limit: Time)
    requires IsRunWithin(run, acts, limit) && limit <= 2 * SECOND
    ensures MeetsBound(run, acts)
  {
    forall first: nat, t: nat, b: nat |
      && first <= |acts| && b >= 1
      && (forall i :: first <= i < |acts| && acts[i].Claim? ==> acts[i].batch >= b)
      && Waits(run[first], t)
      && Claims(acts, first, |acts|) > |Queue(run[first], t)| / b
      ensures TakenInTime(run, acts, first, t, b)
    {
      forall i | first <= i < |acts| ensures Serves(run, acts, i, b) {
        WithinTwoSecondsIsTimely(run, acts, limit, i);
      }
      var i := WaitingBound(run, acts, first, t, b);
    }
  }

  /** Row 0 is claimed and its publisher stalls; row 1 is inserted just when the retry of row 0 is due; the failed
      completion commits a microsecond later and puts row 0 first, and a claim of one row passes row 1 over. */
  function StalledActions(e: Event, topic: Topic): seq<Action> {
    [Insert(e, topic), Claim("w", 1, [0]), Insert(e, topic), Fail(0, "w", 2), Claim("w", 1, [0])]
  }

  function StalledTables(e: Event, topic: Topic): seq<Table> {
    var first, second := NewRow(e, topic, 1), NewRow(e, topic, 2 + 2 * SECOND);
    var held := Lock(first, "w", 2);
    var late := Complete(held, false, Some(2 + 2 * SECOND));
    [Table([], 0), Table([first], 1), Table([held], 2), Table([held, second], 2 + 2 * SECOND),
     Table([late, second], 3 + 2 * SECOND), Table([Lock(late, "w", 4 + 2 * SECOND), second], 4 + 2 * SECOND)]
  }

  lemma StalledClaims(e: Event, topic: Topic)
    ensures var run, acts := StalledTables(e, topic), StalledActions(e, topic);
            Step(run[1], acts[1], run[2]) && Step(run[4], acts[4], run[5])
  {
    var run := StalledTables(e, topic);
    assert Locked(run[1].rows, "w", 2, [0]) == run[2].rows;
    assert Locked(run[4].rows, "w", 4 + 2 * SECOND, [0]) == run[5].rows;
  }

  lemma StalledFailure(e: Event, topic: Topic)
    ensures var run, acts := StalledTables(e, topic), StalledActions(e, topic); Step(run[3], acts[3], run[4])
  {
    assert Pow2(1) == 2 * Pow2(0) == 2;
    assert RetryAt(2, 1) == 2 + 2 * SECOND;
  }

  lemma StalledIsARun(e: Event, topic: Topic, limit: Time)
    requires limit > 2 * SECOND
    ensures IsRunWithin(StalledTables(e, topic), StalledActions(e, topic), limit)
  {
    var run, acts := StalledTables(e, topic), StalledActions(e, topic);
    StalledClaims(e, topic);
    StalledFailure(e, topic);
    forall i | 0 <= i < |acts| ensures StepAt(run, acts, i) && CommitsWithin(run, acts, i, limit) {
      assert i == 0 || i == 1 || i == 2 || i == 3 || i == 4;
    }
  }

  lemma StalledMissesBound(e: Event, topic: Topic)
    ensures !MeetsBound(StalledTables(e, topic), StalledActions(e, topic))
  {
    var run, acts := StalledTables(e, topic), StalledActions(e, topic);
    assert Queue(run[3], 1) == {};
    assert Claims(acts, 3, 5) == Claims(acts, 3, 4) + 1 == Claims(acts, 3, 3) + 1 == 1;
    assert Waits(run[3], 1);
    assert forall i :: 3 <= i < 5 ==> !Picks(acts[i], 1);
    assert !TakenInTime(run, acts, 3, 1, 1);
  }

  /** The waiting bound holds in every run from the empty table in which failed completions commit at most `limit`
      after the failure, exactly when `limit` is no more than the first retry delay. */
  lemma BoundIffWithinTwoSeconds(e: Event, topic: Topic, limit: Time)
    ensures (forall run: seq<Table>, acts: seq<Action> :: IsRunWithin(run, acts, limit) ==> MeetsBound(run, acts))
            <==> limit <= 2 * SECOND
  {
    if limit <= 2 * SECOND {
      forall run: seq<Table>, acts: seq<Action> | IsRunWithin(run, acts, limit) ensures MeetsBound(run, acts) {
        WithinTwoSecondsMeetsBound(run, acts, limit);
      }
    } else {
      StalledIsARun(e, topic, limit);
      StalledMissesBound(e, topic);
    }
  }
}
