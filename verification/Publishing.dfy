/** `OutboxPublisher.publish_batch`, statement by statement, as a path of the publishers' state machine. */
module Publishing {
  import opened Basics
  import opened Domain
  import opened Outbox
  import opened Contracts
  import Consumption
  import OutboxProgress
  import Relay

  // A step of the state machine and the time it happens.
  datatype Timed = Timed(at: Time, step: Relay.Step)

  /** The states that a publisher and its tables have gone through, and the steps between them. */
  datatype Path = Path(states: seq<(Relay.State, Time)>, steps: seq<Timed>) {
    /** The path starts in a sound state, and step `i - 1` leads to state `i`. */
    ghost predicate LeadsTo(i: nat)
      requires |states| == |steps| + 1 && i <= |steps|
    {
      if i == 0 then Relay.Inv(states[0].0, states[0].1)
      else
        && states[i - 1].1 <= states[i].1 == steps[i - 1].at
        && Relay.Enabled(states[i - 1].0, states[i].1, steps[i - 1].step)
        && states[i].0 == Relay.Next(states[i - 1].0, states[i].1, steps[i - 1].step)
    }

    ghost predicate Valid() {
      |states| == |steps| + 1 && forall i :: 0 <= i <= |steps| ==> LeadsTo(i)
    }

    ghost function End(): (Relay.State, Time)
      requires states != []
    {
      states[|states| - 1]
    }

    ghost function Extended(at: Time, step: Relay.Step): Path
      requires states != [] && Relay.Enabled(End().0, at, step)
    {
      Path(states + [(Relay.Next(End().0, at, step), at)], steps + [Timed(at, step)])
    }
  }

  lemma ExtendedIsValid(p: Path, at: Time, step: Relay.Step)
    requires p.Valid() && p.End().1 <= at && Relay.Enabled(p.End().0, at, step)
    ensures p.Extended(at, step).Valid()
    ensures p.Extended(at, step).End() == (Relay.Next(p.End().0, at, step), at)
  {
    var q := p.Extended(at, step);
    forall i | 0 <= i <= |q.steps| ensures q.LeadsTo(i) {
      if i <= |p.steps| {
        assert p.LeadsTo(i);
      }
    }
  }

  lemma {:induction false} PathKeepsInv(p: Path, n: nat)
    requires p.Valid() && n <= |p.steps|
    ensures Relay.Inv(p.states[n].0, p.states[n].1)
  {
    assert p.LeadsTo(n);
    if n > 0 {
      PathKeepsInv(p, n - 1);
      Relay.StepKeepsInv(p.states[n - 1].0, p.states[n - 1].1, p.states[n].1, p.steps[n - 1].step);
    }
  }

  /** How many records of a producer are still in its queue. */
  function Outstanding(wire: seq<Relay.Send>, p: nat): nat {
    if wire == [] then 0
    else
      Outstanding(wire[..|wire| - 1], p)
      + (if wire[|wire| - 1].publisher == p && wire[|wire| - 1].queued then 1 else 0)
  }

  lemma {:induction false} NoneOutstanding(wire: seq<Relay.Send>, p: nat)
    ensures Outstanding(wire, p) == 0 <==> forall k :: 0 <= k < |wire| ==> wire[k].publisher != p || !wire[k].queued
  {
    if wire != [] {
      NoneOutstanding(wire[..|wire| - 1], p);
    }
  }

  /** What the claim query returns: the rows as they are now, with their raised attempt count. */
  function Returned(rows: seq<Row>, ids: seq<nat>): (r: seq<Relay.Item>)
    requires forall i :: i in ids ==> i < |rows|
    ensures |r| == |ids|
  {
    seq(|ids|, i requires 0 <= i < |ids| => assert ids[i] in ids; Relay.Item(ids[i], rows[ids[i]].attempts))
  }

  lemma ReturnedAreClaimed(rows: seq<Row>, worker: string, now: Time, ids: seq<nat>)
    requires forall i :: i in ids ==> i < |rows|
    ensures Returned(Locked(rows, worker, now, ids), ids) == Relay.Claimed(rows, ids)
  {
    forall i | 0 <= i < |ids|
      ensures Returned(Locked(rows, worker, now, ids), ids)[i] == Relay.Claimed(rows, ids)[i]
    {
      assert ids[i] in ids;
    }
  }

  /** How a claimed row is left: published, or failed with a retry time computed after the claim. */
  ghost predicate Settled(claimed: Row, attempt: nat, claimedAt: Time, r: Row) {
    || r == Complete(claimed, true, None)
    || exists failedAt :: claimedAt <= failedAt && r == Complete(claimed, false, Some(RetryAt(failedAt, attempt)))
  }

  // One claim: the rows before it, who took which of them, and when.
  datatype Claiming = Claiming(was: seq<Row>, worker: string, at: Time, picked: seq<nat>) {
    ghost predicate Valid() {
      Distinct(picked) && forall k :: k in picked ==> k < |was|
    }

    function Taken(k: nat): Row
      requires k < |was|
    {
      Lock(was[k], worker, at)
    }
  }

  /** The j-th claimed row when the first `i` were handled: still claimed, or settled, and published if `clean`. */
  ghost predicate HandledTo(c: Claiming, i: nat, clean: bool, rows: seq<Row>, j: nat)
    requires c.Valid() && j < |c.picked| && |rows| == |c.was|
  {
    var k := c.picked[j];
    assert k in c.picked;
    if j >= i then rows[k] == c.Taken(k)
    else if clean then rows[k] == Complete(c.Taken(k), true, None)
    else Settled(c.Taken(k), c.was[k].attempts + 1, c.at, rows[k])
  }

  /** The first `i` claimed rows are settled, and published if `clean`; the others are still claimed, and no other row
      has changed. */
  ghost predicate Progressed(c: Claiming, i: nat, clean: bool, rows: seq<Row>)
    requires c.Valid()
  {
    && |rows| == |c.was| && i <= |c.picked|
    && (forall r :: 0 <= r < |rows| && r !in c.picked ==> rows[r] == c.was[r])
    && (forall j :: 0 <= j < |c.picked| ==> HandledTo(c, i, clean, rows, j))
  }

  lemma ClaimedIsProgressed(c: Claiming, batch: nat)
    requires IsClaim(c.was, c.at, batch, c.picked)
    ensures c.Valid() && Progressed(c, 0, true, Locked(c.was, c.worker, c.at, c.picked))
  {
  }

  lemma SettlingProgresses(c: Claiming, i: nat, clean: bool, rows: seq<Row>, settled: Row, still: bool)
    requires c.Valid() && i < |c.picked| && Progressed(c, i, clean, rows)
    requires c.picked[i] < |c.was| && Settled(c.Taken(c.picked[i]), c.was[c.picked[i]].attempts + 1, c.at, settled)
    requires still ==> clean && settled == Complete(c.Taken(c.picked[i]), true, None)
    ensures Progressed(c, i + 1, still, rows[c.picked[i] := settled])
  {
    var after, next := rows[c.picked[i] := settled], i + 1;
    assert c.picked[i] in c.picked;
    forall j | 0 <= j < |c.picked| ensures HandledTo(c, next, still, after, j) {
      assert HandledTo(c, i, clean, rows, j);
    }
  }

  lemma RowIsTaken(c: Claiming, i: nat, clean: bool, rows: seq<Row>)
    requires c.Valid() && i < |c.picked| && Progressed(c, i, clean, rows)
    ensures c.picked[i] < |rows| && rows[c.picked[i]] == c.Taken(c.picked[i])
  {
    assert c.picked[i] in c.picked && HandledTo(c, i, clean, rows, i);
  }

  lemma Later(claimed: Row, attempt: nat, early: Time, late: Time, r: Row)
    requires Settled(claimed, attempt, late, r) && early <= late
    ensures Settled(claimed, attempt, early, r)
  {
  }

  /** The checked-in contract of each event type. */
  predicate IsSchemaFile(e: Event, file: string) {
    match e
    case DocumentSubmitted(_, _, _, _, _, _) => file == "document-submitted.avsc"
    case DocumentFetched(_, _, _, _, _, _, _, _, _, _, _) => file == "document-fetched.avsc"
    case DocumentFetchRejected(_, _, _, _, _, _, _) => file == "document-fetch-rejected.avsc"
    case ContentExtracted(_, _, _, _, _, _, _, _, _, _) => file == "content-extracted.avsc"
    case ContentExtractionRejected(_, _, _, _, _, _, _) => file == "content-extraction-rejected.avsc"
  }

  class OutboxPublisher {
    const id: nat
    const worker: string
    const table: OutboxTable
    const cache: SerializerCache
    var wire: seq<Relay.Send>       // every record handed to the producer, and whether it is still queued
    var log: seq<Relay.LogRecord>   // the Kafka log
    var now: Time
    ghost var publishers: map<nat, Relay.Publisher>
    ghost var path: Path
    ghost var faults: nat           // failures of the encoder, the broker or the database

    constructor (id: nat, worker: string, table: OutboxTable, cache: SerializerCache, wire: seq<Relay.Send>,
                 log: seq<Relay.LogRecord>, now: Time, ghost publishers: map<nat, Relay.Publisher>)
      requires cache.Valid() && id in publishers && publishers[id].worker == worker
      requires Relay.Inv(Relay.State(table.rows, publishers, wire, log), now)
      ensures Valid() && State() == Relay.State(table.rows, publishers, wire, log)
      ensures this.id == id && this.table == table && this.cache == cache
    {
      this.id, this.worker, this.table, this.cache := id, worker, table, cache;
      this.wire, this.log, this.now := wire, log, now;
      this.publishers, this.faults := publishers, 0;
      this.path := Path([(Relay.State(table.rows, publishers, wire, log), now)], []);
    }

    ghost function State(): Relay.State
      reads this, table
    {
      Relay.State(table.rows, publishers, wire, log)
    }

    ghost predicate Valid()
      reads this, table, cache
    {
      && cache.Valid()
      && id in publishers && publishers[id].worker == worker
      && path.Valid() && path.End() == (State(), now)
    }

    /** What holds of the shared tables at every statement. */
    lemma StateInv()
      requires Valid()
      ensures Relay.Inv(State(), now)
    {
      PathKeepsInv(path, |path.steps|);
    }

    lemma SentRowExists(k: nat)
      requires Valid() && k < |wire|
      ensures wire[k].item.row < |table.rows|
    {
      StateInv();
    }

    lemma HeadIsHeld()
      requires Valid() && Mine().worklist != []
      ensures HeldBy(table.rows, Mine().worklist[0].row, worker)
    {
      StateInv();
      Relay.CompletionIsAlwaysAccepted(State(), now, id);
    }

    lemma PublishedAreInLog()
      requires Valid()
      ensures forall r :: 0 <= r < |table.rows| && table.rows[r].status.Published? ==> Relay.InLog(State(), r)
    {
      StateInv();
    }

    ghost function Mine(): Relay.Publisher
      requires id in publishers
      reads this
    {
      publishers[id]
    }

    /** Time passes. Nothing else does: what other processes do in between is part of `Relay`. */
    method Clock() returns (at: Time)
      ensures at > now
    {
      var d: nat :| true;
      at := now + d + 1;
    }

    /** Records that a statement did what step `a` does. */
    ghost method Did(a: Relay.Step, at: Time, before: Relay.State)
      requires cache.Valid() && at > now
      requires id in before.publishers && before.publishers[id].worker == worker && before.publishers == publishers
      requires path.Valid() && path.End() == (before, now)
      requires Relay.Enabled(before, at, a) && !a.Kill? && !a.Start?
      requires State().(publishers := Relay.Next(before, at, a).publishers) == Relay.Next(before, at, a)
      modifies this`publishers, this`path
      ensures publishers == Relay.Next(before, at, a).publishers
      ensures id in publishers && publishers[id].worker == worker
      ensures path.Valid() && path.End() == (State(), at)
    {
      ExtendedIsValid(path, at, a);
      publishers := Relay.Next(before, at, a).publishers;
      path := path.Extended(at, a);
    }

    method ClaimRows(batch: int, at: Time) returns (claimed: Option<seq<nat>>)
      requires Valid() && Mine().worklist == [] && at > now
      modifies this`publishers, this`path, table
      ensures claimed.Some? <==> 1 <= batch <= MAX_BATCH
      ensures claimed.None? ==> State() == old(State()) && Valid()
      ensures claimed.Some? ==> IsClaim(old(table.rows), at, batch, claimed.value)
      ensures claimed.Some? ==>
                && table.rows == Locked(old(table.rows), worker, at, claimed.value)
                && var items := Relay.Claimed(old(table.rows), claimed.value);
                   publishers == old(publishers)[id := Relay.Publisher(worker, items, items, Relay.Waiting, {})]
      ensures claimed.Some? ==> cache.Valid() && path.Valid() && path.End() == (State(), at)
    {
      ghost var before := State();
      claimed := table.ClaimOutboxEvents(worker, batch, at);
      if claimed.Some? {
        Relay.ClaimNext(before, at, id, batch, claimed.value);
        Did(Relay.ClaimBatch(id, batch, claimed.value), at, before);
      }
    }

    /** `SELECT * FROM rag.claim_outbox_events` in its own transaction; None is the range error, or a failure of the
        database, which rolls the claim back. */
    method Claim(batch: int) returns (items: Option<seq<Relay.Item>>, ghost picked: seq<nat>)
      requires Valid() && Mine().worklist == []
      modifies this`now, this`publishers, this`path, this`faults, table
      ensures Valid() && old(faults) <= faults <= old(faults) + 1
      ensures items.Some? <==> 1 <= batch <= MAX_BATCH && faults == old(faults)
      ensures items.None? ==> State() == old(State()) && now == old(now)
      ensures items.Some? ==> now > old(now) && IsClaim(old(table.rows), now, batch, picked)
      ensures items.Some? ==>
                && items.value == Relay.Claimed(old(table.rows), picked)
                && table.rows == Locked(old(table.rows), worker, now, picked)
                && publishers
                   == old(publishers)[id := Relay.Publisher(worker, items.value, items.value, Relay.Waiting, {})]
    {
      if * {
        faults := faults + 1;
        return None, [];
      }
      var at := Clock();
      var claimed := ClaimRows(batch, at);
      if claimed.None? {
        return None, [];
      }
      picked := claimed.value;
      ReturnedAreClaimed(old(table.rows), worker, at, picked);
      items := Some(Returned(table.rows, claimed.value));
      now := at;
    }

    /** `flush`: queued records may be delivered, on any partition; the rest stays in the queue. */
    method Flush() returns (outstanding: nat)
      requires Valid()
      modifies this`wire, this`log, this`now, this`publishers, this`path, this`faults
      ensures Valid() && publishers == old(publishers) && old(log) <= log && now >= old(now)
      ensures outstanding == 0 <==> !Relay.HasQueued(State(), id)
      ensures faults == old(faults) + if outstanding == 0 then 0 else 1
    {
      var k := 0;
      while k < |wire|
        invariant Valid() && publishers == old(publishers) && old(log) <= log && now >= old(now)
        invariant |wire| == old(|wire|) && faults == old(faults)
      {
        if wire[k].publisher == id && wire[k].queued {
          if * {
            Deliver(k);
          }
        }
        k := k + 1;
      }
      outstanding := Outstanding(wire, id);
      NoneOutstanding(wire, id);
      if outstanding > 0 {
        faults := faults + 1;
      }
    }

    method Deliver(k: nat)
      requires Valid() && k < |wire| && wire[k].queued
      modifies this`wire, this`log, this`now, this`publishers, this`path
      ensures Valid() && publishers == old(publishers) && |wire| == old(|wire|)
      ensures old(log) <= log && now >= old(now)
    {
      ghost var before := State();
      SentRowExists(k);
      var at := Clock();
      var partition: nat :| true;
      log := log + [Relay.LogRecord(Consumption.Lane(table.rows[wire[k].item.row].topic, partition), k)];
      wire := wire[k := wire[k].(queued := false)];
      Did(Relay.Deliver(k, partition), at, before);
      now := at;
    }

    /** The event that the loop is at, with its worklist. */
    ghost predicate At(event: Relay.Item)
      reads this
    {
      id in publishers && Mine().worklist != [] && Mine().worklist[0] == event
    }

    method Produce(event: Relay.Item)
      requires Valid() && At(event) && Mine().head.Waiting?
      modifies this`wire, this`now, this`publishers, this`path
      ensures Valid() && now >= old(now)
      ensures publishers == old(publishers)[id := old(Mine()).(head := Relay.Produced)]
    {
      ghost var before := State();
      var at := Clock();
      wire := wire + [Relay.Send(event, id, true)];
      Did(Relay.Produce(id), at, before);
      now := at;
    }

    /** The contract, the payload and the headers of the record. `file` is the schema file that the payload was encoded
        with: that of the row's own event type. */
    method Encode(event: Relay.Item) returns (file: Option<string>)
      requires Valid() && event.row < |table.rows|
      modifies cache, this`faults
      ensures Valid() && faults == old(faults) + if file.Some? then 0 else 1
      ensures file.Some? ==> IsSchemaFile(table.rows[event.row].event, file.value)
    {
      file := None;
      ghost var e := table.rows[event.row].event;
      PipelineEventsHaveContracts(e);
      var contract := ResolveContractMetadata(StoredMetadata(table.rows[event.row].event));
      if contract.Some? {
        file := cache.Serializer(contract.value.0, contract.value.1);
        assert file == SchemaFileOf(e);
      }
      if file.Some? {
        if * {
          file := None;  // the payload or a header cannot be encoded
        }
      }
      if file.None? {
        faults := faults + 1;
      }
    }

    /** The exception handler is entered. */
    method Fails(a: Relay.Step)
      requires Valid() && Mine().worklist != []
      requires (a == Relay.CannotProduce(id) && Mine().head.Waiting?)
               || (a == Relay.CompletionRaises(id) && Mine().head.Delivered?)
      modifies this`now, this`publishers, this`path
      ensures Valid() && now > old(now)
      ensures publishers == old(publishers)[id := old(Mine()).(head := Relay.Failing(now))]
    {
      var at := Clock();
      Did(a, at, State());
      now := at;
    }

    /** `flush` has returned, and raises if it left something outstanding. */
    method Flushed(outstanding: nat) returns (ok: bool)
      requires Valid() && Mine().worklist != [] && Mine().head.Produced?
      requires outstanding == 0 <==> !Relay.HasQueued(State(), id)
      modifies this`now, this`publishers, this`path
      ensures Valid() && now > old(now) && ok == (outstanding == 0)
      ensures publishers
              == old(publishers)[id := old(Mine()).(head := if ok then Relay.Delivered else Relay.Failing(now))]
    {
      var at := Clock();
      ok := outstanding == 0;
      Did(if ok then Relay.FlushEmpty(id) else Relay.FlushTimesOut(id), at, State());
      now := at;
    }

    /** `produce` and `flush`; false if something is still outstanding. */
    method Send(event: Relay.Item) returns (ok: bool)
      requires Valid() && At(event) && Mine().head.Waiting?
      modifies this`wire, this`log, this`now, this`publishers, this`path, this`faults
      ensures Valid() && now >= old(now) && faults == old(faults) + if ok then 0 else 1
      ensures publishers
              == old(publishers)[id := old(Mine()).(head := if ok then Relay.Delivered else Relay.Failing(now))]
    {
      Produce(event);
      var outstanding := Flush();
      ok := Flushed(outstanding);
    }

    /** `_publish_event`; false is any exception: no contract, a payload or header that cannot be encoded, a full
        queue, or records still outstanding after the flush. Each is a fault: nothing else makes it fail. What is
        produced was encoded with the contract of the row's own event type. */
    method PublishEvent(event: Relay.Item) returns (ok: bool, ghost file: Option<string>)
      requires Valid() && At(event) && Mine().head.Waiting? && event.row < |table.rows|
      modifies this`wire, this`log, this`now, this`publishers, this`path, this`faults, cache
      ensures Valid() && now >= old(now) && faults == old(faults) + if ok then 0 else 1
      ensures publishers
              == old(publishers)[id := old(Mine()).(head := if ok then Relay.Delivered else Relay.Failing(now))]
      ensures ok ==> file.Some? && IsSchemaFile(table.rows[event.row].event, file.value)
    {
      var schema := Encode(event);
      file := schema;
      if schema.Some? {
        ok := Send(event);
      } else {
        Fails(Relay.CannotProduce(id));
        ok := false;
      }
    }

    /** `_complete`; false is an exception of the database, which rolled the transaction back. The exception 'not
        claimed by worker' is not among them: the row is always found. */
    method CompleteEvent(event: Relay.Item, succeeded: bool, retryAt: Option<Time>) returns (ok: bool)
      requires Valid() && At(event)
      requires succeeded ==> Mine().head.Delivered? && retryAt.None?
      requires !succeeded ==> Mine().head.Failing? && retryAt == Some(RetryAt(Mine().head.failedAt, event.attempt))
      modifies table, this`now, this`publishers, this`path, this`faults
      ensures Valid() && now >= old(now) && faults == old(faults) + if ok then 0 else 1
      ensures !ok ==> table.rows == old(table.rows) && publishers == old(publishers) && now == old(now)
      ensures ok ==> event.row < |old(table.rows)|
      ensures ok ==> table.rows
                     == old(table.rows)[event.row := Complete(old(table.rows)[event.row], succeeded, retryAt)]
      ensures ok ==> publishers == old(publishers)[id := Relay.Finished(old(Mine()))]
    {
      if * {
        faults := faults + 1;
        return false;
      }
      ghost var before := State();
      HeadIsHeld();
      var at := Clock();
      ok := table.CompleteOutboxEvent(event.row, worker, succeeded, retryAt);
      Did(if succeeded then Relay.CompletePublished(id) else Relay.RecordFailure(id), at, before);
      now := at;
    }

    /** `_complete` of a delivered event; an exception of it enters the except clause. */
    method CompletePublished(event: Relay.Item) returns (ok: bool)
      requires Valid() && At(event) && Mine().head.Delivered? && event.row < |table.rows|
      modifies table, this`now, this`publishers, this`path, this`faults
      ensures Valid() && now >= old(now) && faults == old(faults) + if ok then 0 else 1
      ensures publishers == old(publishers)[id := if ok then Relay.Finished(old(Mine()))
                                                  else old(Mine()).(head := Relay.Failing(now))]
      ensures table.rows == if ok then old(table.rows)[event.row := Complete(old(table.rows)[event.row], true, None)]
                            else old(table.rows)
    {
      ok := CompleteEvent(event, true, None);
      if !ok {
        Fails(Relay.CompletionRaises(id));
      }
    }

    /** The try clause. */
    method TryPublish(event: Relay.Item) returns (ok: bool)
      requires Valid() && At(event) && Mine().head.Waiting? && event.row < |table.rows|
      modifies this`wire, this`log, this`now, this`publishers, this`path, this`faults, table, cache
      ensures Valid() && now >= old(now) && faults == old(faults) + if ok then 0 else 1
      ensures publishers == old(publishers)[id := if ok then Relay.Finished(old(Mine()))
                                                  else old(Mine()).(head := Relay.Failing(now))]
      ensures table.rows == if ok then old(table.rows)[event.row := Complete(old(table.rows)[event.row], true, None)]
                            else old(table.rows)
    {
      ghost var file;
      ok, file := PublishEvent(event);
      if ok {
        ok := CompletePublished(event);
      }
    }

    /** The except clause; false is an exception of `_complete`. */
    method RecordFailure(event: Relay.Item, failedAt: Time) returns (ok: bool)
      requires Valid() && At(event) && Mine().head == Relay.Failing(failedAt) && event.row < |table.rows|
      modifies table, this`now, this`publishers, this`path, this`faults
      ensures Valid() && now >= old(now) && faults == old(faults) + if ok then 0 else 1
      ensures !ok ==> publishers == old(publishers)
      ensures ok ==>
                && publishers == old(publishers)[id := Relay.Finished(old(Mine()))]
                && table.rows == old(table.rows)[event.row := Complete(old(table.rows)[event.row], false,
                                                                       Some(RetryAt(failedAt, event.attempt)))]
      ensures ok ==> table.rows[event.row].availableAt
                     == failedAt + 1_000_000 * if event.attempt >= 8 then 256
                                               else [1, 2, 4, 8, 16, 32, 64, 128][event.attempt]
    {
      OutboxProgress.RetryTimes(failedAt, event.attempt);
      var retryAt := RetryAt(failedAt, event.attempt);
      ok := CompleteEvent(event, false, Some(retryAt));
    }

    /** The except clause was left by an exception: the row it was at is still `publishing`. */
    ghost predicate NotRecorded()
      reads this, table
    {
      && id in publishers && Mine().worklist != [] && Mine().head.Failing?
      && HeldBy(table.rows, Mine().worklist[0].row, worker)
    }

    /** The body of the loop over the claimed events; false is the exception of a failed `_complete` in the except
        clause, which leaves the loop. */
    method Handle(event: Relay.Item) returns (ok: bool, ghost settled: Row)
      requires Valid() && At(event) && Mine().head.Waiting? && event.row < |table.rows|
      modifies this`wire, this`log, this`now, this`publishers, this`path, this`faults, table, cache
      ensures Valid() && now >= old(now) && faults >= old(faults)
      ensures faults == old(faults) ==> ok && settled == Complete(old(table.rows)[event.row], true, None)
      ensures !ok ==> faults >= old(faults) + 2 && NotRecorded()
      ensures ok ==> publishers == old(publishers)[id := Relay.Finished(old(Mine()))]
      ensures ok ==> table.rows
                     == old(table.rows)[event.row := settled]
                     && Settled(old(table.rows)[event.row], event.attempt, old(now), settled)
    {
      settled := Complete(table.rows[event.row], true, None);
      ok := TryPublish(event);
      if !ok {
        settled := Complete(table.rows[event.row], false, Some(RetryAt(now, event.attempt)));
        ok := RecordFailure(event, now);
        if !ok {
          HeadIsHeld();
        }
      }
    }

    /** The loop over the claimed events; false if it was left by an exception. */
    method HandleAll(events: seq<Relay.Item>, ghost c: Claiming) returns (ok: bool)
      requires Valid() && Mine().worklist == events && Mine().head.Waiting?
      requires c.Valid() && c.at == now && events == Relay.Claimed(c.was, c.picked)
      requires Progressed(c, 0, true, table.rows)
      modifies this`wire, this`log, this`now, this`publishers, this`path, this`faults, table, cache
      ensures Valid() && faults >= old(faults)
      ensures !ok ==> faults >= old(faults) + 2 && NotRecorded()
      ensures ok ==> Mine().worklist == [] && Progressed(c, |c.picked|, faults == old(faults), table.rows)
    {
      var i := 0;
      while i < |events|
        invariant 0 <= i <= |events| && Valid() && now >= c.at
        invariant Mine().worklist == events[i..] && Mine().head.Waiting?
        invariant faults >= old(faults) && Progressed(c, i, faults == old(faults), table.rows)
      {
        assert c.picked[i] in c.picked;
        ghost var rows, at, clean, settled := table.rows, now, faults == old(faults), table.rows[c.picked[i]];
        RowIsTaken(c, i, clean, rows);
        ok, settled := Handle(events[i]);
        if !ok {
          return;
        }
        Later(rows[c.picked[i]], events[i].attempt, c.at, at, settled);
        SettlingProgresses(c, i, clean, rows, settled, faults == old(faults));
        i := i + 1;
      }
      ok := true;
    }

    /** `publish_batch`. Some(n) is a normal return with n claimed events: every claimed row has left `publishing`,
        published with its record in the log or failed with a later retry, and no other row has changed; without a fault
        all of them are published. None is an exception, and there are three: the range error, a claim that fails and
        is rolled back, and a completion that fails inside the except clause, for which it takes a second fault. */
    method PublishBatch(batch: int) returns (count: Option<nat>, ghost c: Claiming)
      requires Valid() && Mine().worklist == []
      modifies this`wire, this`log, this`now, this`publishers, this`path, this`faults, table, cache
      ensures Valid() && faults >= old(faults)
      ensures count.None? ==>
                || (!(1 <= batch <= MAX_BATCH) && State() == old(State()))
                || (faults == old(faults) + 1 && State() == old(State()))
                || (faults >= old(faults) + 2 && NotRecorded())
      ensures 1 <= batch <= MAX_BATCH && faults == old(faults) ==> count.Some?
      ensures count.Some? ==>
                && 1 <= batch <= MAX_BATCH
                && c.Valid() && c.was == old(table.rows) && c.worker == worker && c.at > old(now)
                && IsClaim(c.was, c.at, batch, c.picked) && count.value == |c.picked|
                && Mine().worklist == [] && Progressed(c, |c.picked|, faults == old(faults), table.rows)
                && forall r :: 0 <= r < |table.rows| && table.rows[r].status.Published? ==> Relay.InLog(State(), r)
    {
      var events, picked := Claim(batch);
      c := Claiming(old(table.rows), worker, now, picked);
      if events.None? {
        return None, c;
      }
      ClaimedIsProgressed(c, batch);
      var ok := HandleAll(events.value, c);
      if !ok {
        return None, c;
      }
      count := Some(|events.value|);
      PublishedAreInLog();
    }
  }

  /** What a normal return leaves of the rows: those of the batch are out of `publishing` and unlocked, counted as one
      attempt, and retried no sooner than the backoff allows; without a fault all are published. The others are as they
      were. */
  lemma NormalReturn(c: Claiming, clean: bool, rows: seq<Row>, r: nat)
    requires c.Valid() && Progressed(c, |c.picked|, clean, rows) && r < |rows|
    ensures r !in c.picked ==> rows[r] == c.was[r]
    ensures r in c.picked ==>
              && !rows[r].status.Publishing? && rows[r].lockedBy.None? && rows[r].attempts == c.was[r].attempts + 1
              && (rows[r].status.Published? || rows[r].status.Failed?)
              && (rows[r].status.Failed? ==>
                    rows[r].availableAt
                    >= c.at + 1_000_000 * if rows[r].attempts >= 8 then 256
                                          else [1, 2, 4, 8, 16, 32, 64, 128][rows[r].attempts])
              && (clean ==> rows[r].status.Published?)
  {
    if r in c.picked {
      var j :| 0 <= j < |c.picked| && c.picked[j] == r;
      assert HandledTo(c, |c.picked|, clean, rows, j);
      forall failedAt {
        OutboxProgress.RetryTimes(failedAt, c.was[r].attempts + 1);
      }
    }
  }
}
