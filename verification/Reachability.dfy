/** The states that runs reach, and how to go on from any of them. */
module Reachability {
  import opened Domain
  import opened Ledger
  import opened Provenance
  import opened Pipeline
  import opened PipelineInvariant
  import opened PipelineSteps
  import opened Guarantees
  import Consumption
  import Outbox
  import Streams
  import Relay

  // What the converter may make of given bytes.
  type Converter = (Bytes, Streams.Conversion) -> bool

  /** If step `a` has the converter read a source, its answer is one that it may give. */
  ghost predicate Answers(c: Config, may: Converter, s: State, a: Step) {
    a.Handling? && a.h.BeginExtract? && Readable(s, a.h.i) && EventAt(s, a.h.i).DocumentFetched? ==>
      var content := ReadSource(c, s.sources, EventAt(s, a.h.i).payloadUri);
      content.Some? ==> may(content.value, a.h.conversion)
  }

  ghost predicate AnswersAt(c: Config, may: Converter, run: seq<State>, steps: seq<Step>, k: nat)
    requires k < |steps| && |run| == |steps| + 1
  {
    Answers(c, may, run[k], steps[k])
  }

  ghost predicate IsRunWith(c: Config, may: Converter, run: seq<State>, steps: seq<Step>) {
    && IsRun(c, run, steps)
    && forall k :: 0 <= k < |steps| ==> AnswersAt(c, may, run, steps, k)
  }

  ghost predicate Leads(c: Config, may: Converter, o: State, s: State, run: seq<State>, steps: seq<Step>, k: nat) {
    IsRunWith(c, may, run, steps) && k <= |steps| && run[k] == o && run[|steps|] == s
  }

  /** Some run comes through `o` and goes on to `s`. */
  ghost predicate Reaches(c: Config, may: Converter, o: State, s: State) {
    exists run: seq<State>, steps: seq<Step>, k: nat :: Leads(c, may, o, s, run, steps, k)
  }

  lemma StartReaches(c: Config, may: Converter, s: State)
    requires Start(c, s)
    ensures Reaches(c, may, s, s)
  {
    assert Leads(c, may, s, s, [s], [], 0);
  }

  lemma RunTo(c: Config, may: Converter, o: State, s: State) returns (run: seq<State>, steps: seq<Step>)
    requires Reaches(c, may, o, s)
    ensures IsRunWith(c, may, run, steps) && run[|steps|] == s
  {
    var r: seq<State>, a: seq<Step>, k: nat :| Leads(c, may, o, s, r, a, k);
    run, steps := r, a;
  }

  /** Every state of a run can be gone on from. */
  lemma FromHere(c: Config, may: Converter, o: State, s: State)
    requires Reaches(c, may, o, s)
    ensures Reaches(c, may, s, s)
  {
    var run: seq<State>, steps: seq<Step>, k: nat :| Leads(c, may, o, s, run, steps, k);
    assert Leads(c, may, s, s, run, steps, |steps|);
  }

  lemma Extend(c: Config, run: seq<State>, steps: seq<Step>, a: Step, t: State)
    requires IsRun(c, run, steps) && Moves(c, run[|steps|], a, t)
    ensures IsRun(c, run + [t], steps + [a])
  {
    var more, moreSteps := run + [t], steps + [a];
    forall i | 0 <= i < |moreSteps| ensures StepAt(c, more, moreSteps, i) {
      if i < |steps| {
        assert StepAt(c, run, steps, i);
      }
      assert Moves(c, more[i], moreSteps[i], more[i + 1]);
    }
  }

  lemma AnswerStays(c: Config, may: Converter, run: seq<State>, steps: seq<Step>, a: Step, t: State, k: nat)
    requires |run| == |steps| + 1 && k <= |steps|
    requires if k < |steps| then AnswersAt(c, may, run, steps, k) else Answers(c, may, run[k], a)
    ensures AnswersAt(c, may, run + [t], steps + [a], k)
  {
  }

  lemma RunGoesOn(c: Config, may: Converter, run: seq<State>, steps: seq<Step>, a: Step, t: State)
    requires IsRunWith(c, may, run, steps) && Moves(c, run[|steps|], a, t) && Answers(c, may, run[|steps|], a)
    ensures IsRunWith(c, may, run + [t], steps + [a])
  {
    Extend(c, run, steps, a, t);
    forall k | 0 <= k < |steps + [a]| ensures AnswersAt(c, may, run + [t], steps + [a], k) {
      AnswerStays(c, may, run, steps, a, t, k);
    }
  }

  lemma StepReaches(c: Config, may: Converter, o: State, s: State, a: Step, t: State)
    requires Reaches(c, may, o, s) && Moves(c, s, a, t) && Answers(c, may, s, a)
    ensures Reaches(c, may, o, t)
  {
    var run: seq<State>, steps: seq<Step>, k: nat :| Leads(c, may, o, s, run, steps, k);
    RunGoesOn(c, may, run, steps, a, t);
    assert Leads(c, may, o, t, run + [t], steps + [a], k);
  }

  lemma ReachedInv(c: Config, may: Converter, o: State, s: State)
    requires Reaches(c, may, o, s)
    ensures Inv(c, s)
  {
    var run: seq<State>, steps: seq<Step>, k: nat :| Leads(c, may, o, s, run, steps, k);
    ReachableInv(c, run, steps, |steps|);
  }

  // ---- A submission ----

  lemma ReceiveReaches(c: Config, may: Converter, o: State, s: State, call: Call, t: State)
    requires Reaches(c, may, o, s) && RequestEnabled(c, s, Receive(call))
    requires t == s.(now := s.now + 1, calls := s.calls[call.documentId := call],
                     issued := s.issued + {call.documentId})
    ensures Reaches(c, may, o, t)
  {
    StepReaches(c, may, o, s, Requesting(Receive(call)), t);
  }

  lemma PutReaches(c: Config, may: Converter, o: State, s: State, d: Id, t: State)
    requires Reaches(c, may, o, s) && d in s.calls && s.calls[d].phase.Uploading?
    requires t == s.(now := s.now + 1, sources := s.sources[KeyFor(s.calls[d]) := s.calls[d].content],
                     calls := s.calls[d := s.calls[d].(phase := Stored)])
    ensures Reaches(c, may, o, t)
  {
    StepReaches(c, may, o, s, Requesting(PutObject(d)), t);
  }

  lemma CommitReaches(c: Config, may: Converter, o: State, s: State, d: Id, t: State)
    requires Reaches(c, may, o, s) && d in s.calls && s.calls[d].phase.Stored?
    requires !Violates(s.db, SubmissionFor(c, s.calls[d]))
    requires t == s.(now := s.now + 1, db := CreateSubmission(s.db, SubmissionFor(c, s.calls[d]), s.now + 1).db,
                     calls := s.calls - {d})
    ensures Reaches(c, may, o, t)
  {
    StepReaches(c, may, o, s, Requesting(CommitSubmission(d)), t);
  }

  lemma UnknownCall(c: Config, may: Converter, o: State, s: State, d: Id)
    requires Reaches(c, may, o, s) && d !in s.issued
    ensures d !in s.calls
  {
    ReachedInv(c, may, o, s);
    assert d in s.calls ==> CallOk(c, s, d, s.calls[d]);
  }

  function AfterUpload(s: State, call: Call): State {
    var d := call.documentId;
    s.(now := s.now + 2, issued := s.issued + {d}, sources := s.sources[KeyFor(call) := call.content],
       calls := s.calls[d := call.(phase := Stored)])
  }

  lemma UploadReaches(c: Config, may: Converter, o: State, s: State, call: Call)
    requires Reaches(c, may, o, s) && RequestEnabled(c, s, Receive(call))
    ensures Reaches(c, may, o, AfterUpload(s, call))
  {
    var d := call.documentId;
    var received := s.(now := s.now + 1, calls := s.calls[d := call], issued := s.issued + {d});
    ReceiveReaches(c, may, o, s, call, received);
    assert received.calls[d := call.(phase := Stored)] == AfterUpload(s, call).calls;
    PutReaches(c, may, o, received, d, AfterUpload(s, call));
  }

  function AfterSubmission(c: Config, s: State, call: Call): State
    requires !Violates(s.db, SubmissionFor(c, call))
  {
    s.(now := s.now + 3, issued := s.issued + {call.documentId},
       sources := s.sources[KeyFor(call) := call.content],
       db := CreateSubmission(s.db, SubmissionFor(c, call), s.now + 3).db)
  }

  /** A request that violates no constraint can be carried through. */
  lemma SubmissionReaches(c: Config, may: Converter, o: State, s: State, call: Call)
    requires Reaches(c, may, o, s) && RequestEnabled(c, s, Receive(call)) && !Violates(s.db, SubmissionFor(c, call))
    ensures Reaches(c, may, o, AfterSubmission(c, s, call))
  {
    UnknownCall(c, may, o, s, call.documentId);
    UploadReaches(c, may, o, s, call);
    var stored := AfterUpload(s, call);
    assert stored.calls - {call.documentId} == s.calls;
    CommitReaches(c, may, o, stored, call.documentId, AfterSubmission(c, s, call));
  }

  // ---- The way of a row into the log ----

  lemma RelayMoves(c: Config, s: State, now: Time, b: Relay.Step, t: State)
    requires s.now < now && !b.Insert? && Relay.Enabled(RelayOf(s), now, b)
    requires t == WithRelay(s.(now := now), Relay.Next(RelayOf(s), now, b))
    ensures Moves(c, s, Relaying(b), t)
  {
  }

  lemma RelayReaches(c: Config, may: Converter, o: State, s: State, b: Relay.Step, t: State)
    requires Reaches(c, may, o, s) && !b.Insert? && Relay.Enabled(RelayOf(s), s.now + 1, b)
    requires t == WithRelay(s.(now := s.now + 1), Relay.Next(RelayOf(s), s.now + 1, b))
    ensures Reaches(c, may, o, t)
  {
    RelayMoves(c, s, s.now + 1, b, t);
    StepReaches(c, may, o, s, Relaying(b), t);
  }

  ghost predicate Fresh(s: State, p: nat) {
    p !in s.publishers && forall k :: 0 <= k < |s.wire| ==> s.wire[k].publisher != p
  }

  const IDLE := Relay.Publisher("w", [], [], Relay.Waiting, {})

  lemma PublisherReaches(c: Config, may: Converter, o: State, s: State, p: nat, t: State)
    requires Reaches(c, may, o, s) && Fresh(s, p)
    requires t == s.(now := s.now + 1, publishers := s.publishers[p := IDLE])
    ensures Reaches(c, may, o, t)
  {
    RelayReaches(c, may, o, s, Relay.Start(p, "w"), t);
  }

  predicate IsWaiting(row: Outbox.Row) {
    row.status.Pending? || row.status.Failed?
  }

  /** No waiting row is ahead of row `r`, which can be claimed. */
  ghost predicate IsFirst(rows: seq<Outbox.Row>, now: Time, r: nat) {
    && r < |rows| && Outbox.Claimable(rows[r], now)
    && forall u :: 0 <= u < |rows| && IsWaiting(rows[u]) ==> !Outbox.Ahead(rows[u], rows[r])
  }

  function ItemOf(rows: seq<Outbox.Row>, r: nat): Relay.Item
    requires r < |rows|
  {
    Relay.Item(r, rows[r].attempts + 1)
  }

  lemma FirstRowIsClaim(rows: seq<Outbox.Row>, now: Time, r: nat)
    requires IsFirst(rows, now, r)
    ensures Outbox.IsClaim(rows, now + 1, 1, [r])
    ensures Outbox.Locked(rows, "w", now + 1, [r]) == rows[r := Outbox.Lock(rows[r], "w", now + 1)]
    ensures Relay.Claimed(rows, [r]) == [ItemOf(rows, r)]
  {
    assert forall u: nat :: u < |rows| && Outbox.Claimable(rows[u], now + 1) ==> IsWaiting(rows[u]);
  }

  /** A publisher whose batch is one row. */
  function Holding(item: Relay.Item, head: Relay.Head): Relay.Publisher {
    Relay.Publisher("w", [item], [item], head, {})
  }

  function AfterRowClaim(s: State, p: nat, r: nat): State
    requires r < |s.db.outbox|
  {
    var rows := s.db.outbox;
    s.(now := s.now + 1, db := s.db.(outbox := rows[r := Outbox.Lock(rows[r], "w", s.now + 1)]),
       publishers := s.publishers[p := Holding(ItemOf(rows, r), Relay.Waiting)])
  }

  lemma RowClaimIsNext(s: State, p: nat, r: nat)
    requires IsFirst(s.db.outbox, s.now, r) && p in s.publishers && s.publishers[p] == IDLE
    ensures Relay.Enabled(RelayOf(s), s.now + 1, Relay.ClaimBatch(p, 1, [r]))
    ensures AfterRowClaim(s, p, r)
            == WithRelay(s.(now := s.now + 1), Relay.Next(RelayOf(s), s.now + 1, Relay.ClaimBatch(p, 1, [r])))
  {
    FirstRowIsClaim(s.db.outbox, s.now, r);
    Relay.ClaimNext(RelayOf(s), s.now + 1, p, 1, [r]);
  }

  lemma RowClaimReaches(c: Config, may: Converter, o: State, s: State, p: nat, r: nat)
    requires Reaches(c, may, o, s) && IsFirst(s.db.outbox, s.now, r) && p in s.publishers && s.publishers[p] == IDLE
    ensures Reaches(c, may, o, AfterRowClaim(s, p, r))
  {
    RowClaimIsNext(s, p, r);
    RelayReaches(c, may, o, s, Relay.ClaimBatch(p, 1, [r]), AfterRowClaim(s, p, r));
  }

  lemma ProduceReaches(c: Config, may: Converter, o: State, s: State, p: nat, item: Relay.Item, t: State)
    requires Reaches(c, may, o, s) && p in s.publishers && s.publishers[p] == Holding(item, Relay.Waiting)
    requires t == s.(now := s.now + 1, wire := s.wire + [Relay.Send(item, p, true)],
                     publishers := s.publishers[p := Holding(item, Relay.Produced)])
    ensures Reaches(c, may, o, t)
  {
    RelayReaches(c, may, o, s, Relay.Produce(p), t);
  }

  lemma RecordReaches(c: Config, may: Converter, o: State, s: State, k: nat, t: State)
    requires Reaches(c, may, o, s) && k < |s.wire| && s.wire[k].queued && s.wire[k].item.row < |s.db.outbox|
    requires t == s.(now := s.now + 1, wire := s.wire[k := s.wire[k].(queued := false)],
                     log := s.log + [Relay.LogRecord(Consumption.Lane(s.db.outbox[s.wire[k].item.row].topic, 0), k)])
    ensures Reaches(c, may, o, t)
  {
    RelayReaches(c, may, o, s, Relay.Deliver(k, 0), t);
  }

  lemma FlushReaches(c: Config, may: Converter, o: State, s: State, p: nat, item: Relay.Item, t: State)
    requires Reaches(c, may, o, s) && p in s.publishers && s.publishers[p] == Holding(item, Relay.Produced)
    requires !Relay.HasQueued(RelayOf(s), p)
    requires t == s.(now := s.now + 1, publishers := s.publishers[p := Holding(item, Relay.Delivered)])
    ensures Reaches(c, may, o, t)
  {
    RelayReaches(c, may, o, s, Relay.FlushEmpty(p), t);
  }

  lemma CompleteReaches(c: Config, may: Converter, o: State, s: State, p: nat, item: Relay.Item, t: State)
    requires Reaches(c, may, o, s) && p in s.publishers && s.publishers[p] == Holding(item, Relay.Delivered)
    requires Outbox.HeldBy(s.db.outbox, item.row, "w")
    requires var rows := s.db.outbox;
             t == s.(now := s.now + 1,
                     db := s.db.(outbox := rows[item.row := Outbox.Complete(rows[item.row], true, None)]),
                     publishers := s.publishers[p := Relay.Publisher("w", [item], [], Relay.Waiting, {item})])
    ensures Reaches(c, may, o, t)
  {
    assert [item][1..] == [] && {} + {item} == {item};
    RelayReaches(c, may, o, s, Relay.CompletePublished(p), t);
  }

  lemma KillReaches(c: Config, may: Converter, o: State, s: State, p: nat, t: State)
    requires Reaches(c, may, o, s) && p in s.publishers
    requires t == s.(now := s.now + 1, publishers := s.publishers - {p}, wire := Relay.Lost(s.wire, p))
    ensures Reaches(c, may, o, t)
  {
    RelayReaches(c, may, o, s, Relay.Kill(p), t);
  }

  function AfterClaim(s: State, r: nat, p: nat): State
    requires r < |s.db.outbox|
  {
    var rows := s.db.outbox;
    s.(now := s.now + 2, db := s.db.(outbox := rows[r := Outbox.Lock(rows[r], "w", s.now + 2)]),
       publishers := s.publishers[p := Holding(ItemOf(rows, r), Relay.Waiting)])
  }

  lemma ClaimReaches(c: Config, may: Converter, o: State, s: State, r: nat, p: nat)
    requires Reaches(c, may, o, s) && IsFirst(s.db.outbox, s.now, r) && Fresh(s, p)
    ensures Reaches(c, may, o, AfterClaim(s, r, p))
  {
    var started, claimed := s.(now := s.now + 1, publishers := s.publishers[p := IDLE]), AfterClaim(s, r, p);
    PublisherReaches(c, may, o, s, p, started);
    assert started.publishers[p := claimed.publishers[p]] == claimed.publishers;
    RowClaimReaches(c, may, o, started, p, r);
  }

  function AfterDelivery(s: State, r: nat, p: nat): State
    requires r < |s.db.outbox|
  {
    var rows, item := s.db.outbox, ItemOf(s.db.outbox, r);
    s.(now := s.now + 4, db := s.db.(outbox := rows[r := Outbox.Lock(rows[r], "w", s.now + 2)]),
       publishers := s.publishers[p := Holding(item, Relay.Produced)],
       wire := s.wire + [Relay.Send(item, p, false)],
       log := s.log + [Relay.LogRecord(Consumption.Lane(rows[r].topic, 0), |s.wire|)])
  }

  /** A new publisher can take the first row into the log. */
  lemma DeliveryReaches(c: Config, may: Converter, o: State, s: State, r: nat, p: nat)
    requires Reaches(c, may, o, s) && IsFirst(s.db.outbox, s.now, r) && Fresh(s, p)
    ensures Reaches(c, may, o, AfterDelivery(s, r, p))
  {
    var item, claimed, t := ItemOf(s.db.outbox, r), AfterClaim(s, r, p), AfterDelivery(s, r, p);
    ClaimReaches(c, may, o, s, r, p);
    var produced := claimed.(now := s.now + 3, wire := s.wire + [Relay.Send(item, p, true)],
                             publishers := t.publishers);
    assert claimed.publishers[p := t.publishers[p]] == t.publishers;
    ProduceReaches(c, may, o, claimed, p, item, produced);
    assert produced.wire[|s.wire| := Relay.Send(item, p, false)] == t.wire;
    RecordReaches(c, may, o, produced, |s.wire|, t);
  }

  function PublishedRow(row: Outbox.Row): Outbox.Row {
    row.(status := Outbox.Published, attempts := row.attempts + 1, lockedAt := None, lockedBy := None)
  }

  function AfterPublish(s: State, r: nat, p: nat): State
    requires r < |s.db.outbox|
  {
    var rows := s.db.outbox;
    s.(now := s.now + 7, db := s.db.(outbox := rows[r := PublishedRow(rows[r])]),
       wire := s.wire + [Relay.Send(ItemOf(rows, r), p, false)],
       log := s.log + [Relay.LogRecord(Consumption.Lane(rows[r].topic, 0), |s.wire|)])
  }

  function AfterCompletion(s: State, r: nat, p: nat): State
    requires r < |s.db.outbox|
  {
    var item := ItemOf(s.db.outbox, r);
    AfterPublish(s, r, p).(now := s.now + 6,
                           publishers := s.publishers[p := Relay.Publisher("w", [item], [], Relay.Waiting, {item})])
  }

  lemma NothingQueued(s: State, r: nat, p: nat)
    requires r < |s.db.outbox| && Fresh(s, p)
    ensures !Relay.HasQueued(RelayOf(AfterDelivery(s, r, p)), p)
    ensures Relay.Lost(AfterCompletion(s, r, p).wire, p) == AfterPublish(s, r, p).wire
    ensures AfterCompletion(s, r, p).publishers - {p} == s.publishers
  {
    var wire := AfterPublish(s, r, p).wire;
    assert forall k :: 0 <= k < |wire| && wire[k].publisher == p ==> k == |s.wire|;
  }

  function AfterFlush(s: State, r: nat, p: nat): State
    requires r < |s.db.outbox|
  {
    AfterDelivery(s, r, p).(now := s.now + 5,
                            publishers := s.publishers[p := Holding(ItemOf(s.db.outbox, r), Relay.Delivered)])
  }

  lemma FlushedReaches(c: Config, may: Converter, o: State, s: State, r: nat, p: nat)
    requires Reaches(c, may, o, s) && IsFirst(s.db.outbox, s.now, r) && Fresh(s, p)
    ensures Reaches(c, may, o, AfterFlush(s, r, p))
  {
    var item, delivered, t := ItemOf(s.db.outbox, r), AfterDelivery(s, r, p), AfterFlush(s, r, p);
    DeliveryReaches(c, may, o, s, r, p);
    NothingQueued(s, r, p);
    assert delivered.publishers[p := Holding(item, Relay.Delivered)] == t.publishers;
    FlushReaches(c, may, o, delivered, p, item, t);
  }

  lemma CompletionReaches(c: Config, may: Converter, o: State, s: State, r: nat, p: nat)
    requires Reaches(c, may, o, s) && IsFirst(s.db.outbox, s.now, r) && Fresh(s, p)
    ensures Reaches(c, may, o, AfterCompletion(s, r, p))
  {
    var item, flushed, t := ItemOf(s.db.outbox, r), AfterFlush(s, r, p), AfterCompletion(s, r, p);
    FlushedReaches(c, may, o, s, r, p);
    assert flushed.publishers[p := t.publishers[p]] == t.publishers;
    assert flushed.db.outbox[r := t.db.outbox[r]] == t.db.outbox;
    CompleteReaches(c, may, o, flushed, p, item, t);
  }

  /** A new publisher can publish the first row, and end. */
  lemma PublishReaches(c: Config, may: Converter, o: State, s: State, r: nat, p: nat)
    requires Reaches(c, may, o, s) && IsFirst(s.db.outbox, s.now, r) && Fresh(s, p)
    ensures Reaches(c, may, o, AfterPublish(s, r, p))
  {
    CompletionReaches(c, may, o, s, r, p);
    NothingQueued(s, r, p);
    KillReaches(c, may, o, AfterCompletion(s, r, p), p, AfterPublish(s, r, p));
  }

  lemma PublishedRecord(s: State, r: nat, p: nat)
    requires r < |s.db.outbox|
    ensures var t := AfterPublish(s, r, p);
            && Readable(t, |s.log|) && EventAt(t, |s.log|) == s.db.outbox[r].event
            && t.log[|s.log|].lane == Consumption.Lane(s.db.outbox[r].topic, 0)
            && Events(t.db.outbox) == Events(s.db.outbox)
  {
  }

  // ---- All waiting rows ----

  lemma {:induction false} Above(numbers: set<nat>) returns (n: nat)
    ensures forall k :: k in numbers ==> k < n
  {
    n := 0;
    if numbers != {} {
      var k :| k in numbers;
      var m := Above(numbers - {k});
      n := if k < m then m else k + 1;
      assert forall j :: j in numbers ==> j == k || j in numbers - {k};
    }
  }

  lemma NewPublisher(s: State) returns (p: nat)
    ensures Fresh(s, p)
  {
    var used := s.publishers.Keys + set k | 0 <= k < |s.wire| :: s.wire[k].publisher;
    p := Above(used);
    assert p !in used;
    assert forall k :: 0 <= k < |s.wire| ==> s.wire[k].publisher in used;
  }

  lemma TickReaches(c: Config, may: Converter, o: State, s: State, now: Time)
    requires Reaches(c, may, o, s) && s.now < now
    ensures Reaches(c, may, o, s.(now := now))
  {
    StepReaches(c, may, o, s, Tick, s.(now := now));
  }

  function WaitingRows(rows: seq<Outbox.Row>): set<nat> {
    set r | 0 <= r < |rows| && IsWaiting(rows[r])
  }

  lemma {:induction false} FirstOf(rows: seq<Outbox.Row>, waiting: set<nat>) returns (r: nat)
    requires waiting != {} && forall u :: u in waiting ==> u < |rows|
    ensures r in waiting && forall u :: u in waiting ==> !Outbox.Ahead(rows[u], rows[r])
    decreases waiting
  {
    r :| r in waiting;
    if waiting != {r} {
      var other := FirstOf(rows, waiting - {r});
      if Outbox.Ahead(rows[other], rows[r]) {
        r := other;
      }
    }
  }

  /** Every row is settled or held: none waits. */
  predicate NoneWaits(rows: seq<Outbox.Row>) {
    forall r :: 0 <= r < |rows| ==> !IsWaiting(rows[r])
  }

  /** Nothing has changed but that some waiting rows are published and in the log. */
  ghost predicate IsDrained(s: State, t: State) {
    && t == s.(now := t.now, db := s.db.(outbox := t.db.outbox), wire := t.wire, log := t.log)
    && Events(t.db.outbox) == Events(s.db.outbox) && s.wire <= t.wire && s.log <= t.log
    && (forall r :: 0 <= r < |s.db.outbox| ==>
          t.db.outbox[r] == s.db.outbox[r] || (IsWaiting(s.db.outbox[r]) && t.db.outbox[r].status.Published?))
  }

  lemma OneDrained(s: State, at: Time, r: nat, p: nat, u: State)
    requires r < |s.db.outbox| && IsWaiting(s.db.outbox[r]) && IsDrained(AfterPublish(s.(now := at), r, p), u)
    ensures IsDrained(s, u)
  {
    PublishedRecord(s, r, p);
  }

  lemma FewerWait(rows: seq<Outbox.Row>, r: nat)
    requires r < |rows| && IsWaiting(rows[r])
    ensures WaitingRows(rows[r := PublishedRow(rows[r])]) == WaitingRows(rows) - {r}
  {
  }

  /** New publishers can publish every row that waits. */
  lemma {:induction false} DrainReaches(c: Config, may: Converter, o: State, s: State) returns (t: State)
    requires Reaches(c, may, o, s)
    ensures Reaches(c, may, o, t) && IsDrained(s, t) && NoneWaits(t.db.outbox)
    decreases WaitingRows(s.db.outbox)
  {
    var waiting := WaitingRows(s.db.outbox);
    assert forall u :: 0 <= u < |s.db.outbox| && IsWaiting(s.db.outbox[u]) ==> u in waiting;
    if waiting == {} {
      t := s;
    } else {
      var r := FirstOf(s.db.outbox, waiting);
      var at := s.now + 1 + s.db.outbox[r].availableAt;
      var p := NewPublisher(s);
      TickReaches(c, may, o, s, at);
      PublishReaches(c, may, o, s.(now := at), r, p);
      FewerWait(s.db.outbox, r);
      t := DrainReaches(c, may, o, AfterPublish(s.(now := at), r, p));
      OneDrained(s, at, r, p, t);
    }
  }

  // ---- A fetch ----

  /** The transaction of a submitted record that is new commits, if the id it draws is. */
  lemma FetchCommits(db: Db, i: nat, inputs: FetchInputs, newId: Id, now: Time)
    requires Lineage(View(db)) && i < |View(db).events| && View(db).events[i].DocumentSubmitted?
    requires FetchArguments(inputs.inspection, inputs.error)
    requires var e := View(db).events[i]; FetchKey(e) !in db.processed && !EventStored(db.outbox, e.tenantId, newId)
    ensures var tx := Fetch(db, View(db).events[i], inputs.inspection, inputs.error, newId, now);
            tx.Committed? && tx.applied
  {
    var e := View(db).events[i];
    assert Grounded(View(db), e);
    SourceIsKnown(View(db), e);
    var v := VersionOf(View(db), Doc(e));
    var db1 := db.(processed := db.processed + {FetchKey(e)});
    assert Fetch(db, e, inputs.inspection, inputs.error, newId, now)
           == FetchKnown(db1, e, v, inputs.inspection, inputs.error, newId, now);
  }

  function Begun(s: State, r: nat, i: nat, inputs: FetchInputs): State {
    s.(now := s.now + 1, fetches := s.fetches[r := FetchRun(i, inputs, false)])
  }

  lemma FetchBeginReaches(c: Config, may: Converter, o: State, s: State, r: nat, i: nat, first: nat,
                          inputs: FetchInputs, t: State)
    requires Reaches(c, may, o, s) && r !in s.fetches && Readable(s, i) && s.log[i].lane.topic == SubmittedTopic
    requires FetchInputsFor(c, s.sources, EventAt(s, i), first) == Some(inputs) && t == Begun(s, r, i, inputs)
    ensures Reaches(c, may, o, t)
  {
    StepReaches(c, may, o, s, Handling(BeginFetch(r, i, first, false)), t);
  }

  /** What the transaction of a new record does. */
  ghost predicate FetchApplies(db: Db, e: Event, inputs: FetchInputs, newId: Id, now: Time, after: Db) {
    && e.DocumentSubmitted? && Known(View(db), Doc(e)) && FetchArguments(inputs.inspection, inputs.error)
    && var v := VersionOf(View(db), Doc(e));
       var verdict := FetchVerdict(db.versions[v], inputs.inspection, inputs.error);
       && Appends(db.outbox, after.outbox, now)
       && View(after) == Advance(View(db), Doc(e), FetchChange(db.versions[v], verdict), FetchKey(e),
                                 FetchOutcome(e, v.1, verdict, inputs.inspection, newId))
  }

  predicate FetchIsNew(s: State, i: nat, newId: Id)
    requires Readable(s, i)
  {
    var e := EventAt(s, i);
    FetchKey(e) !in s.db.processed && !EventStored(s.db.outbox, e.tenantId, newId)
  }

  lemma NewFetchApplies(c: Config, may: Converter, o: State, s: State, r: nat, newId: Id, now: Time)
    requires Reaches(c, may, o, s) && r in s.fetches && Readable(s, s.fetches[r].record)
    requires FetchIsNew(s, s.fetches[r].record, newId)
    ensures FetchTx(s, r, newId, now).Committed?
    ensures FetchApplies(s.db, EventAt(s, s.fetches[r].record), s.fetches[r].inputs, newId, now,
                         FetchTx(s, r, newId, now).db)
  {
    var run := s.fetches[r];
    ReachedInv(c, may, o, s);
    assert FetchRunOk(c, s, run);
    FetchCommits(s.db, RowOf(s, run.record), run.inputs, newId, now);
    FetchAdvances(s.db, RowOf(s, run.record), run.inputs.inspection, run.inputs.error, newId, now);
    FetchAppends(s.db, EventAt(s, run.record), run.inputs.inspection, run.inputs.error, newId, now);
  }

  lemma FetchFinishReaches(c: Config, may: Converter, o: State, s: State, r: nat, i: nat, inputs: FetchInputs,
                           newId: Id)
    returns (t: State)
    requires Reaches(c, may, o, s) && r in s.fetches && s.fetches[r] == FetchRun(i, inputs, false) && Readable(s, i)
    requires FetchIsNew(s, i, newId)
    ensures Reaches(c, may, o, t) && t == s.(now := s.now + 1, db := t.db, fetches := s.fetches - {r})
    ensures FetchApplies(s.db, EventAt(s, i), inputs, newId, s.now + 1, t.db)
  {
    NewFetchApplies(c, may, o, s, r, newId, s.now + 1);
    t := s.(now := s.now + 1, db := FetchTx(s, r, newId, s.now + 1).db, fetches := s.fetches - {r});
    StepReaches(c, may, o, s, Handling(FinishFetch(r, newId)), t);
  }

  lemma SameRecord(s: State, r: nat, i: nat, inputs: FetchInputs, newId: Id, t: State)
    requires r !in s.fetches && Readable(s, i) && FetchIsNew(s, i, newId) && t == Begun(s, r, i, inputs)
    ensures Readable(t, i) && FetchIsNew(t, i, newId) && EventAt(t, i) == EventAt(s, i)
    ensures t.fetches - {r} == s.fetches && r in t.fetches && t.fetches[r] == FetchRun(i, inputs, false)
    ensures t.db == s.db && t.now == s.now + 1
  {
  }

  /** A submitted record that is not processed can be fetched. */
  lemma FetchReaches(c: Config, may: Converter, o: State, s: State, i: nat, first: nat, inputs: FetchInputs, newId: Id)
    returns (t: State)
    requires Reaches(c, may, o, s) && Readable(s, i) && s.log[i].lane.topic == SubmittedTopic
    requires FetchInputsFor(c, s.sources, EventAt(s, i), first) == Some(inputs) && FetchIsNew(s, i, newId)
    ensures Reaches(c, may, o, t) && t == s.(now := s.now + 2, db := t.db)
    ensures FetchApplies(s.db, EventAt(s, i), inputs, newId, s.now + 2, t.db)
  {
    var r := Above(s.fetches.Keys);
    var begun := Begun(s, r, i, inputs);
    FetchBeginReaches(c, may, o, s, r, i, first, inputs, begun);
    SameRecord(s, r, i, inputs, newId, begun);
    t := FetchFinishReaches(c, may, o, begun, r, i, inputs, newId);
  }

  // ---- An extraction ----

  lemma FinishCommits(db: Db, m: nat, outcome: Result<ExtractionStatus, ExtractError>, normalizedUri: string,
                      manifestUri: string, newId: Id, now: Time)
    requires Lineage(View(db)) && m < |View(db).events| && View(db).events[m].DocumentFetched?
    requires var e := View(db).events[m];
             ExtractKey(e) !in db.processed && !EventStored(db.outbox, e.tenantId, newId)
    ensures var tx := Finish(db, View(db).events[m], outcome, normalizedUri, manifestUri, newId, now);
            tx.Committed? && tx.applied
  {
    assert Grounded(View(db), View(db).events[m]);
    var v := VersionOf(View(db), Doc(View(db).events[m]));
    assert v in View(db).versions;
  }

  lemma ExtractionBeginReaches(c: Config, may: Converter, o: State, s: State, r: nat, i: nat,
                               conversion: Streams.Conversion, owned: bool, t: State)
    requires Reaches(c, may, o, s) && r !in s.runs && Readable(s, i) && s.log[i].lane.topic == FetchedTopic
    requires EventAt(s, i).DocumentFetched? && (owned ==> i in s.extractor.inflight)
    requires var content := ReadSource(c, s.sources, EventAt(s, i).payloadUri);
             content.Some? ==> may(content.value, conversion)
    requires ExtractOutcomeFor(c, s.sources, EventAt(s, i), conversion).Some?
    requires var outcome := ExtractOutcomeFor(c, s.sources, EventAt(s, i), conversion).value;
             t == s.(now := s.now + 1, runs := s.runs[r := ExtractRun(i, outcome, 0, owned)])
    ensures Reaches(c, may, o, t)
  {
    StepReaches(c, may, o, s, Handling(BeginExtract(r, i, conversion, owned)), t);
  }

  lemma NormalizedReaches(c: Config, may: Converter, o: State, s: State, r: nat, t: State)
    requires Reaches(c, may, o, s) && r in s.runs && s.runs[r].outcome.Ok? && s.runs[r].stored == 0
    requires Readable(s, s.runs[r].record) && EventAt(s, s.runs[r].record).DocumentFetched?
    requires var e, result := EventAt(s, s.runs[r].record), s.runs[r].outcome.value;
             t == s.(now := s.now + 1, runs := s.runs[r := s.runs[r].(stored := 1)],
                     artifacts := s.artifacts[NormalizedFor(e) := Streams.NormalizedOf(result)])
    ensures Reaches(c, may, o, t)
  {
    StepReaches(c, may, o, s, Handling(StoreNormalized(r)), t);
  }

  lemma ManifestReaches(c: Config, may: Converter, o: State, s: State, r: nat, t: State)
    requires Reaches(c, may, o, s) && r in s.runs && s.runs[r].outcome.Ok? && s.runs[r].stored == 1
    requires Readable(s, s.runs[r].record) && EventAt(s, s.runs[r].record).DocumentFetched?
    requires var e, result := EventAt(s, s.runs[r].record), s.runs[r].outcome.value;
             t == s.(now := s.now + 1, runs := s.runs[r := s.runs[r].(stored := 2)],
                     artifacts := s.artifacts[ManifestFor(e) := Streams.ManifestOf(result, e.contentSha256)])
    ensures Reaches(c, may, o, t)
  {
    StepReaches(c, may, o, s, Handling(StoreManifest(r)), t);
  }

  /** A successful extraction can write both of its artifacts. */
  lemma ArtifactsReach(c: Config, may: Converter, o: State, s: State, r: nat, t: State)
    requires Reaches(c, may, o, s) && r in s.runs && s.runs[r].outcome.Ok? && s.runs[r].stored == 0
    requires Readable(s, s.runs[r].record) && EventAt(s, s.runs[r].record).DocumentFetched?
    requires var e, result := EventAt(s, s.runs[r].record), s.runs[r].outcome.value;
             t == s.(now := s.now + 2, runs := s.runs[r := s.runs[r].(stored := 2)],
                     artifacts := s.artifacts[NormalizedFor(e) := Streams.NormalizedOf(result)]
                                             [ManifestFor(e) := Streams.ManifestOf(result, e.contentSha256)])
    ensures Reaches(c, may, o, t)
  {
    var e, result := EventAt(s, s.runs[r].record), s.runs[r].outcome.value;
    var half := s.(now := s.now + 1, runs := s.runs[r := s.runs[r].(stored := 1)],
                   artifacts := s.artifacts[NormalizedFor(e) := Streams.NormalizedOf(result)]);
    NormalizedReaches(c, may, o, s, r, half);
    assert half.runs[r := half.runs[r].(stored := 2)] == t.runs;
    ManifestReaches(c, may, o, half, r, t);
  }

  predicate ExtractIsNew(s: State, i: nat, newId: Id)
    requires Readable(s, i)
  {
    var e := EventAt(s, i);
    ExtractKey(e) !in s.db.processed && !EventStored(s.db.outbox, e.tenantId, newId)
  }

  ghost predicate ExtractApplies(c: Config, db: Db, e: Event, outcome: Result<ExtractionStatus, ExtractError>,
                                 newId: Id, now: Time, after: Db)
  {
    && e.DocumentFetched? && Known(View(db), Doc(e)) && Appends(db.outbox, after.outbox, now)
    && var v := VersionOf(View(db), Doc(e));
       View(after) == Advance(View(db), Doc(e),
                              ExtractChange(db.versions[v], outcome, NormalizedUriFor(c, e), ManifestUriFor(c, e)),
                              ExtractKey(e),
                              ExtractOutcome(e, outcome, NormalizedUriFor(c, e), ManifestUriFor(c, e), newId))
  }

  lemma NewExtractApplies(c: Config, may: Converter, o: State, s: State, r: nat, newId: Id, now: Time)
    requires Reaches(c, may, o, s) && r in s.runs && Readable(s, s.runs[r].record)
    requires ExtractIsNew(s, s.runs[r].record, newId)
    ensures FinishTx(c, s, r, newId, now).Committed?
    ensures ExtractApplies(c, s.db, EventAt(s, s.runs[r].record), Report(s.runs[r].outcome), newId, now,
                           FinishTx(c, s, r, newId, now).db)
  {
    var run := s.runs[r];
    var e, outcome := EventAt(s, run.record), Report(run.outcome);
    ReachedInv(c, may, o, s);
    assert ExtractRunOk(c, s, run);
    var n, m := NormalizedUriFor(c, e), ManifestUriFor(c, e);
    FinishCommits(s.db, RowOf(s, run.record), outcome, n, m, newId, now);
    FinishAdvances(s.db, RowOf(s, run.record), outcome, n, m, newId, now);
    FinishAppends(s.db, e, outcome, n, m, newId, now);
  }

  function AfterFinish(s: State, r: nat, db: Db): State
    requires r in s.runs
  {
    var run := s.runs[r];
    s.(now := s.now + 1, db := db, runs := s.runs - {r},
       extractor := if run.owned && run.record in s.extractor.inflight
                    then Consumption.Return(s.extractor, run.record) else s.extractor)
  }

  lemma FinishStepMoves(c: Config, s: State, r: nat, newId: Id)
    requires r in s.runs && Readable(s, s.runs[r].record)
    requires (s.runs[r].outcome.Ok? ==> s.runs[r].stored == 2) && FinishTx(c, s, r, newId, s.now + 1).Committed?
    ensures Moves(c, s, Handling(FinishExtract(r, newId)), AfterFinish(s, r, FinishTx(c, s, r, newId, s.now + 1).db))
  {
  }

  lemma FinishStepReaches(c: Config, may: Converter, o: State, s: State, r: nat, newId: Id)
    requires Reaches(c, may, o, s) && r in s.runs && Readable(s, s.runs[r].record)
    requires (s.runs[r].outcome.Ok? ==> s.runs[r].stored == 2) && FinishTx(c, s, r, newId, s.now + 1).Committed?
    ensures Reaches(c, may, o, AfterFinish(s, r, FinishTx(c, s, r, newId, s.now + 1).db))
  {
    FinishStepMoves(c, s, r, newId);
    StepReaches(c, may, o, s, Handling(FinishExtract(r, newId)),
                AfterFinish(s, r, FinishTx(c, s, r, newId, s.now + 1).db));
  }

  /** An extraction that is not processed can be recorded. */
  lemma ExtractionReaches(c: Config, may: Converter, o: State, s: State, r: nat, newId: Id) returns (db: Db)
    requires Reaches(c, may, o, s) && r in s.runs && Readable(s, s.runs[r].record)
    requires (s.runs[r].outcome.Ok? ==> s.runs[r].stored == 2) && ExtractIsNew(s, s.runs[r].record, newId)
    ensures Reaches(c, may, o, AfterFinish(s, r, db))
    ensures ExtractApplies(c, s.db, EventAt(s, s.runs[r].record), Report(s.runs[r].outcome), newId, s.now + 1, db)
  {
    NewExtractApplies(c, may, o, s, r, newId, s.now + 1);
    db := FinishTx(c, s, r, newId, s.now + 1).db;
    FinishStepReaches(c, may, o, s, r, newId);
  }

  // ---- The extractor's loop ----

  lemma PollReaches(c: Config, may: Converter, o: State, s: State, i: nat, t: State)
    requires Reaches(c, may, o, s) && Consumption.CanPoll(Lanes(s.log), FetchedTopic, c.slots, s.extractor, i)
    requires t == s.(now := s.now + 1, extractor := Consumption.Poll(Lanes(s.log), s.extractor, i))
    ensures Reaches(c, may, o, t)
  {
    StepReaches(c, may, o, s, Looping(PollExtractor(i)), t);
  }

  lemma OffsetReaches(c: Config, may: Converter, o: State, s: State, i: nat, t: State)
    requires Reaches(c, may, o, s) && i in s.extractor.done && i < |s.log|
    requires t == s.(now := s.now + 1, extractor := Consumption.Commit(Lanes(s.log), s.extractor, i))
    ensures Reaches(c, may, o, t)
  {
    StepReaches(c, may, o, s, Looping(CommitExtractor(i)), t);
  }
}
