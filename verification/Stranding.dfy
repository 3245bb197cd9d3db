/** Which `publishing` rows can still move: exactly those on the worklist of a live publisher. */
module Stranding {
  import opened Domain
  import opened Pipeline
  import opened PipelineInvariant
  import opened PipelineSteps
  import opened Guarantees
  import opened OutboxGuarantees
  import opened Reachability
  import opened Samples
  import opened SourceKeys
  import Outbox
  import Relay

  predicate Lists(pub: Relay.Publisher, r: nat) {
    exists i :: 0 <= i < |pub.worklist| && pub.worklist[i].row == r
  }

  predicate OnWorklist(publishers: map<nat, Relay.Publisher>, r: nat) {
    exists p :: p in publishers && Lists(publishers[p], r)
  }

  /** Row `r` is `publishing`, and no live publisher has it on its worklist. */
  ghost predicate Stranded(rows: seq<Outbox.Row>, publishers: map<nat, Relay.Publisher>, r: nat) {
    r < |rows| && rows[r].status.Publishing? && !OnWorklist(publishers, r)
  }

  // ---- A stranded row never moves again ----

  lemma ClaimListsOnlyPicked(rows: seq<Outbox.Row>, picked: seq<nat>, r: nat, worker: string)
    requires forall i :: i in picked ==> i < |rows|
    requires r !in picked
    ensures var items := Relay.Claimed(rows, picked);
            !Lists(Relay.Publisher(worker, items, items, Relay.Waiting, {}), r)
  {
    forall i | 0 <= i < |picked| ensures Relay.Claimed(rows, picked)[i].row != r {
      assert picked[i] in picked;
    }
  }

  lemma OthersListAsBefore(before: map<nat, Relay.Publisher>, after: map<nat, Relay.Publisher>, r: nat)
    requires !OnWorklist(before, r)
    requires forall p :: p in after ==> (p in before && after[p] == before[p]) || !Lists(after[p], r)
    ensures !OnWorklist(after, r)
  {
    forall p | p in after ensures !Lists(after[p], r) {
      assert p in before ==> !Lists(before[p], r);
    }
  }

  lemma RestListsLess(pub: Relay.Publisher, r: nat)
    requires pub.worklist != [] && !Lists(pub, r)
    ensures pub.worklist[0].row != r && !Lists(Relay.Finished(pub), r)
  {
    assert forall i :: 0 <= i < |pub.worklist| - 1 ==> pub.worklist[1..][i] == pub.worklist[i + 1];
  }

  lemma ClaimKeepsStranded(s: Relay.State, now: Time, p: nat, batch: nat, picked: seq<nat>, r: nat)
    requires Stranded(s.rows, s.publishers, r) && Relay.Enabled(s, now, Relay.ClaimBatch(p, batch, picked))
    ensures var t := Relay.Next(s, now, Relay.ClaimBatch(p, batch, picked));
            Stranded(t.rows, t.publishers, r) && t.rows[r] == s.rows[r]
  {
    var t := Relay.Next(s, now, Relay.ClaimBatch(p, batch, picked));
    assert r !in picked;
    ClaimListsOnlyPicked(s.rows, picked, r, s.publishers[p].worker);
    OthersListAsBefore(s.publishers, t.publishers, r);
  }

  lemma CompletionKeepsStranded(s: Relay.State, now: Time, a: Relay.Step, r: nat)
    requires Stranded(s.rows, s.publishers, r) && (a.CompletePublished? || a.RecordFailure?) && Relay.Enabled(s, now, a)
    ensures var t := Relay.Next(s, now, a); Stranded(t.rows, t.publishers, r) && t.rows[r] == s.rows[r]
  {
    var t := Relay.Next(s, now, a);
    assert !Lists(s.publishers[a.p], r);
    RestListsLess(s.publishers[a.p], r);
    OthersListAsBefore(s.publishers, t.publishers, r);
  }

  lemma HeadKeepsStranded(s: Relay.State, p: nat, head: Relay.Head, r: nat)
    requires Stranded(s.rows, s.publishers, r) && p in s.publishers
    ensures var t := Relay.WithHead(s, p, head); Stranded(t.rows, t.publishers, r) && t.rows[r] == s.rows[r]
  {
    assert !Lists(s.publishers[p], r);
    OthersListAsBefore(s.publishers, Relay.WithHead(s, p, head).publishers, r);
  }

  lemma RelayKeepsStranded(s: Relay.State, now: Time, a: Relay.Step, r: nat)
    requires Stranded(s.rows, s.publishers, r) && Relay.Enabled(s, now, a)
    ensures var t := Relay.Next(s, now, a); Stranded(t.rows, t.publishers, r) && t.rows[r] == s.rows[r]
  {
    match a
    case ClaimBatch(p, batch, picked) => ClaimKeepsStranded(s, now, p, batch, picked, r);
    case CompletePublished(p) => CompletionKeepsStranded(s, now, a, r);
    case RecordFailure(p) => CompletionKeepsStranded(s, now, a, r);
    case Produce(p) =>
      HeadKeepsStranded(s.(wire := s.wire + [Relay.Send(s.publishers[p].worklist[0], p, true)]), p, Relay.Produced, r);
    case CannotProduce(p) => HeadKeepsStranded(s, p, Relay.Failing(now), r);
    case FlushEmpty(p) => HeadKeepsStranded(s, p, Relay.Delivered, r);
    case FlushTimesOut(p) => HeadKeepsStranded(s, p, Relay.Failing(now), r);
    case CompletionRaises(p) => HeadKeepsStranded(s, p, Relay.Failing(now), r);
    case _ => OthersListAsBefore(s.publishers, Relay.Next(s, now, a).publishers, r);
  }

  lemma RequestKeepsPublishers(c: Config, s: State, now: Time, q: RequestStep)
    requires RequestEnabled(c, s, q)
    ensures RequestNext(c, s, now, q).publishers == s.publishers
  {
  }

  lemma HandlerKeepsPublishers(c: Config, s: State, now: Time, h: HandlerStep)
    requires HandlerEnabled(c, s, now, h)
    ensures HandlerNext(c, s, now, h).publishers == s.publishers
  {
  }

  lemma LoopKeepsPublishers(c: Config, s: State, now: Time, l: LoopStep)
    requires LoopEnabled(c, s, l)
    ensures LoopNext(c, s, now, l).publishers == s.publishers
  {
  }

  lemma OthersKeepPublishers(c: Config, s: State, now: Time, a: Step)
    requires !a.Relaying? && Enabled(c, s, now, a)
    ensures Next(c, s, now, a).publishers == s.publishers
  {
    match a
    case Requesting(q) => RequestKeepsPublishers(c, s, now, q);
    case Handling(h) => HandlerKeepsPublishers(c, s, now, h);
    case Looping(l) => LoopKeepsPublishers(c, s, now, l);
    case Tick =>
  }

  lemma OthersAppend(c: Config, s: State, now: Time, a: Step, t: State)
    requires TablesInv(s.db) && RunsInv(c, s) && s.now < now && !a.Relaying?
    requires Enabled(c, s, now, a) && t == Next(c, s, now, a)
    ensures Appends(s.db.outbox, t.db.outbox, t.now)
  {
    match a
    case Requesting(q) => RequestAppends(c, s, now, q, t);
    case Handling(h) => HandlerAppends(c, s, now, h, t);
    case Looping(l) => LoopKeepsDocuments(c, s, now, l);
    case Tick =>
  }

  lemma StepKeepsStranded(c: Config, run: seq<State>, steps: seq<Step>, k: nat, r: nat)
    requires IsRun(c, run, steps) && k < |steps| && Stranded(run[k].db.outbox, run[k].publishers, r)
    ensures Stranded(run[k + 1].db.outbox, run[k + 1].publishers, r)
    ensures run[k + 1].db.outbox[r] == run[k].db.outbox[r]
  {
    ReachableInv(c, run, steps, k);
    assert StepAt(c, run, steps, k);
    if steps[k].Relaying? {
      RelayKeepsStranded(RelayOf(run[k]), run[k + 1].now, steps[k].b, r);
    } else {
      OthersKeepPublishers(c, run[k], run[k + 1].now, steps[k]);
      OthersAppend(c, run[k], run[k + 1].now, steps[k], run[k + 1]);
    }
  }

  /** A row that is `publishing` without being on a live worklist stays as it is in every later state. */
  lemma {:induction false} StrandedForever(c: Config, run: seq<State>, steps: seq<Step>, i: nat, j: nat, r: nat)
    requires IsRun(c, run, steps) && i <= j <= |steps| && Stranded(run[i].db.outbox, run[i].publishers, r)
    ensures Stranded(run[j].db.outbox, run[j].publishers, r) && run[j].db.outbox[r] == run[i].db.outbox[r]
    decreases j
  {
    if i < j {
      StrandedForever(c, run, steps, i, j - 1, r);
      StepKeepsStranded(c, run, steps, j - 1, r);
    }
  }

  // ---- A row on a live worklist can be settled ----

  /** What brings the first row of a worklist on its way to a completion. */
  function Decision(s: Relay.State, p: nat): Relay.Step
    requires Relay.Busy(s, p)
  {
    if s.publishers[p].head.Waiting? then Relay.CannotProduce(p)
    else if Relay.HasQueued(s, p) then Relay.FlushTimesOut(p)
    else Relay.FlushEmpty(p)
  }

  lemma DecisionMoves(s: Relay.State, now: Time, p: nat)
    requires Relay.Busy(s, p) && (s.publishers[p].head.Waiting? || s.publishers[p].head.Produced?)
    ensures Relay.Enabled(s, now, Decision(s, p))
    ensures var t := Relay.Next(s, now, Decision(s, p));
            && t.rows == s.rows && p in t.publishers && t.publishers[p].worklist == s.publishers[p].worklist
            && (t.publishers[p].head.Delivered? || t.publishers[p].head.Failing?)
  {
  }

  lemma Decides(c: Config, may: Converter, o: State, s: State, p: nat) returns (t: State)
    requires Reaches(c, may, o, s) && Relay.Busy(RelayOf(s), p)
    ensures Reaches(c, may, o, t) && t.db.outbox == s.db.outbox && p in t.publishers
    ensures t.publishers[p].worklist == s.publishers[p].worklist
    ensures t.publishers[p].head.Delivered? || t.publishers[p].head.Failing?
  {
    if s.publishers[p].head.Delivered? || s.publishers[p].head.Failing? {
      t := s;
    } else {
      var b := Decision(RelayOf(s), p);
      DecisionMoves(RelayOf(s), s.now + 1, p);
      t := WithRelay(s.(now := s.now + 1), Relay.Next(RelayOf(s), s.now + 1, b));
      RelayReaches(c, may, o, s, b, t);
    }
  }

  lemma HeadIsHeld(c: Config, may: Converter, o: State, s: State, p: nat)
    requires Reaches(c, may, o, s) && Relay.Busy(RelayOf(s), p)
    ensures Relay.HoldsHead(RelayOf(s), p)
  {
    ReachedInv(c, may, o, s);
    Relay.CompletionIsAlwaysAccepted(RelayOf(s), s.now, p);
  }

  predicate IsSettled(row: Outbox.Row) {
    row.status.Published? || row.status.Failed?
  }

  lemma Completes(c: Config, may: Converter, o: State, s: State, p: nat) returns (t: State)
    requires Reaches(c, may, o, s) && Relay.Busy(RelayOf(s), p)
    requires s.publishers[p].head.Delivered? || s.publishers[p].head.Failing?
    ensures Reaches(c, may, o, t) && p in t.publishers && t.publishers[p].worklist == s.publishers[p].worklist[1..]
    ensures var r := s.publishers[p].worklist[0].row;
            && r < |s.db.outbox| == |t.db.outbox| && IsSettled(t.db.outbox[r])
            && forall q :: 0 <= q < |s.db.outbox| && q != r ==> t.db.outbox[q] == s.db.outbox[q]
  {
    HeadIsHeld(c, may, o, s, p);
    var b := if s.publishers[p].head.Delivered? then Relay.CompletePublished(p) else Relay.RecordFailure(p);
    t := WithRelay(s.(now := s.now + 1), Relay.Next(RelayOf(s), s.now + 1, b));
    RelayReaches(c, may, o, s, b, t);
  }

  /** The rows of a worklist can be settled one after the other. */
  lemma {:induction false} ListedIsSettled(c: Config, may: Converter, o: State, s: State, p: nat, i: nat)
    returns (t: State)
    requires Reaches(c, may, o, s) && p in s.publishers && i < |s.publishers[p].worklist|
    ensures var r := s.publishers[p].worklist[i].row;
            Reaches(c, may, o, t) && r < |t.db.outbox| && IsSettled(t.db.outbox[r])
    decreases i
  {
    var decided := Decides(c, may, o, s, p);
    var next := Completes(c, may, o, decided, p);
    if i == 0 {
      t := next;
    } else {
      assert next.publishers[p].worklist[i - 1] == s.publishers[p].worklist[i];
      t := ListedIsSettled(c, may, o, next, p, i - 1);
    }
  }

  // ---- Exactly which rows ----

  /** Some continuation takes row `r` out of `publishing`. */
  ghost predicate CanBeSettled(c: Config, may: Converter, s: State, r: nat) {
    exists t :: Reaches(c, may, s, t) && r < |t.db.outbox| && IsSettled(t.db.outbox[r])
  }

  lemma StrandedIsNotSettled(c: Config, may: Converter, s: State, r: nat, t: State)
    requires Stranded(s.db.outbox, s.publishers, r) && Reaches(c, may, s, t)
    ensures r < |t.db.outbox| && t.db.outbox[r] == s.db.outbox[r]
  {
    var run: seq<State>, steps: seq<Step>, k: nat :| Leads(c, may, s, t, run, steps, k);
    StrandedForever(c, run, steps, k, |steps|, r);
  }

  /** In any state that a run reaches, a `publishing` row can be published or failed by some continuation if and only if
      it is on the worklist of a live publisher. */
  lemma SettledIffListed(c: Config, may: Converter, o: State, s: State, r: nat)
    requires Reaches(c, may, o, s) && r < |s.db.outbox| && s.db.outbox[r].status.Publishing?
    ensures CanBeSettled(c, may, s, r) <==> OnWorklist(s.publishers, r)
  {
    if OnWorklist(s.publishers, r) {
      var p :| p in s.publishers && Lists(s.publishers[p], r);
      var i :| 0 <= i < |s.publishers[p].worklist| && s.publishers[p].worklist[i].row == r;
      FromHere(c, may, o, s);
      var t := ListedIsSettled(c, may, s, s, p, i);
    } else {
      forall t | Reaches(c, may, s, t) ensures r < |t.db.outbox| && !IsSettled(t.db.outbox[r]) {
        StrandedIsNotSettled(c, may, s, r, t);
      }
    }
  }

  /** A publisher that dies with a claimed row strands it. */
  lemma DeathStrands(c: Config, may: Converter) returns (t: State)
    requires IsBucket(c.bucket) && c.slots >= 1
    ensures Reaches(c, may, OneTenant(), t) && Stranded(t.db.outbox, t.publishers, 0)
  {
    var s := ClaimedReaches(c, may, {Uuid('1')});
    t := s.(now := s.now + 1, publishers := map[]);
    assert s.publishers - {0} == map[] && Relay.Lost(s.wire, 0) == [];
    KillReaches(c, may, OneTenant(), s, 0, t);
  }
}
