/** Any number of publishers between the outbox table and the Kafka log, step by step: claim, produce, flush,
    complete, and the death of a publisher at any point. */
module Relay {
  import opened Domain
  import opened Outbox
  import opened Consumption
  import Progress = OutboxProgress

  // A claimed row as the claim returned it, with the attempt count of that moment.
  datatype Item = Item(row: nat, attempt: nat)

  // Where a publisher is with the first event of its worklist. Failing is the except clause, entered at `failedAt`.
  datatype Head = Waiting | Produced | Delivered | Failing(failedAt: Time)

  // `batch` is what the last claim returned, `finished` the part of it that was completed, as published or as failed.
  datatype Publisher = Publisher(worker: string, batch: seq<Item>, worklist: seq<Item>, head: Head, finished: set<Item>)

  // One call of `produce`. A queued record is in the local queue of its live publisher and may still be delivered.
  datatype Send = Send(item: Item, publisher: nat, queued: bool)

  datatype LogRecord = LogRecord(lane: Lane, send: nat)

  datatype State = State(rows: seq<Row>, publishers: map<nat, Publisher>, wire: seq<Send>, log: seq<LogRecord>)

  datatype Step =
    | Insert(event: Event)                               // a transaction of another process
    | Start(p: nat, worker: string)
    | ClaimBatch(p: nat, batch: nat, picked: seq<nat>)
    | Produce(p: nat)
    | CannotProduce(p: nat)                              // metadata, serializer or queue raise
    | Deliver(k: nat, partition: nat)                    // the broker takes a queued record
    | FlushEmpty(p: nat)
    | FlushTimesOut(p: nat)
    | CompletePublished(p: nat)
    | CompletionRaises(p: nat)                           // the completing transaction is rolled back
    | RecordFailure(p: nat)
    | Kill(p: nat)                                       // at any point; also a failed completion that raises

  predicate Busy(s: State, p: nat) {
    p in s.publishers && s.publishers[p].worklist != []
  }

  predicate HasQueued(s: State, p: nat) {
    exists k :: 0 <= k < |s.wire| && s.wire[k].publisher == p && s.wire[k].queued
  }

  predicate HoldsHead(s: State, p: nat)
    requires Busy(s, p)
  {
    HeldBy(s.rows, s.publishers[p].worklist[0].row, s.publishers[p].worker)
  }

  ghost predicate Enabled(s: State, now: Time, a: Step) {
    match a
    case Insert(_) => true
    case Start(p, _) => p !in s.publishers && forall k :: 0 <= k < |s.wire| ==> s.wire[k].publisher != p
    case ClaimBatch(p, batch, picked) =>
      p in s.publishers && s.publishers[p].worklist == [] && 1 <= batch <= MAX_BATCH
      && IsClaim(s.rows, now, batch, picked)
    case Produce(p) => Busy(s, p) && s.publishers[p].head.Waiting?
    case CannotProduce(p) => Busy(s, p) && s.publishers[p].head.Waiting?
    case Deliver(k, _) => k < |s.wire| && s.wire[k].queued && s.wire[k].item.row < |s.rows|
    case FlushEmpty(p) => Busy(s, p) && s.publishers[p].head.Produced? && !HasQueued(s, p)
    case FlushTimesOut(p) => Busy(s, p) && s.publishers[p].head.Produced? && HasQueued(s, p)
    case CompletePublished(p) => Busy(s, p) && s.publishers[p].head.Delivered? && HoldsHead(s, p)
    case CompletionRaises(p) => Busy(s, p) && s.publishers[p].head.Delivered?
    case RecordFailure(p) => Busy(s, p) && s.publishers[p].head.Failing? && HoldsHead(s, p)
    case Kill(p) => p in s.publishers
  }

  function WithHead(s: State, p: nat, head: Head): State
    requires p in s.publishers
  {
    s.(publishers := s.publishers[p := s.publishers[p].(head := head)])
  }

  function Finished(pub: Publisher): Publisher
    requires pub.worklist != []
  {
    Publisher(pub.worker, pub.batch, pub.worklist[1..], Waiting, pub.finished + {pub.worklist[0]})
  }

  function Claimed(rows: seq<Row>, picked: seq<nat>): (r: seq<Item>)
    requires forall i :: i in picked ==> i < |rows|
    ensures |r| == |picked|
  {
    seq(|picked|, i requires 0 <= i < |picked| =>
          assert picked[i] in picked; Item(picked[i], rows[picked[i]].attempts + 1))
  }

  function Lost(wire: seq<Send>, p: nat): (r: seq<Send>)
    ensures |r| == |wire|
  {
    seq(|wire|, k requires 0 <= k < |wire| => if wire[k].publisher == p then wire[k].(queued := false) else wire[k])
  }

  ghost function Next(s: State, now: Time, a: Step): State
    requires Enabled(s, now, a)
  {
    match a
    case Insert(e) => s.(rows := s.rows + [NewRow(e, TopicOf(e), now)])
    case Start(p, worker) => s.(publishers := s.publishers[p := Publisher(worker, [], [], Waiting, {})])
    case ClaimBatch(p, _, picked) =>
      var worker := s.publishers[p].worker;
      var batch := Claimed(s.rows, picked);
      s.(rows := Locked(s.rows, worker, now, picked),
         publishers := s.publishers[p := Publisher(worker, batch, batch, Waiting, {})])
    case Produce(p) =>
      WithHead(s.(wire := s.wire + [Send(s.publishers[p].worklist[0], p, true)]), p, Produced)
    case CannotProduce(p) => WithHead(s, p, Failing(now))
    case Deliver(k, partition) =>
      s.(wire := s.wire[k := s.wire[k].(queued := false)],
         log := s.log + [LogRecord(Lane(s.rows[s.wire[k].item.row].topic, partition), k)])
    case FlushEmpty(p) => WithHead(s, p, Delivered)
    case FlushTimesOut(p) => WithHead(s, p, Failing(now))
    case CompletePublished(p) =>
      var row := s.publishers[p].worklist[0].row;
      s.(rows := s.rows[row := Complete(s.rows[row], true, None)],
         publishers := s.publishers[p := Finished(s.publishers[p])])
    case CompletionRaises(p) => WithHead(s, p, Failing(now))
    case RecordFailure(p) =>
      var item := s.publishers[p].worklist[0];
      var retryAt := RetryAt(s.publishers[p].head.failedAt, item.attempt);
      s.(rows := s.rows[item.row := Complete(s.rows[item.row], false, Some(retryAt))],
         publishers := s.publishers[p := Finished(s.publishers[p])])
    case Kill(p) => s.(publishers := s.publishers - {p}, wire := Lost(s.wire, p))
  }

  lemma ClaimNext(s: State, now: Time, p: nat, batch: nat, picked: seq<nat>)
    requires p in s.publishers && s.publishers[p].worklist == [] && 1 <= batch <= MAX_BATCH
    requires IsClaim(s.rows, now, batch, picked)
    ensures Enabled(s, now, ClaimBatch(p, batch, picked))
    ensures var worker, items := s.publishers[p].worker, Claimed(s.rows, picked);
            Next(s, now, ClaimBatch(p, batch, picked))
            == s.(rows := Locked(s.rows, worker, now, picked),
                  publishers := s.publishers[p := Publisher(worker, items, items, Waiting, {})])
  {
  }

  // ---- Claim exclusivity ----

  /** A row carries a lock if and only if it is being published. */
  ghost predicate LockedIffPublishing(rows: seq<Row>, now: Time) {
    forall r :: 0 <= r < |rows| ==>
      && (rows[r].status.Publishing? <==> rows[r].lockedBy.Some?)
      && (rows[r].status.Publishing? <==> rows[r].lockedAt.Some?)
      && (rows[r].lockedAt.Some? ==> rows[r].lockedAt.value <= now)
      && (rows[r].status.Publishing? ==> rows[r].attempts >= 1)
  }

  ghost predicate Owns(rows: seq<Row>, pub: Publisher, item: Item) {
    && HeldBy(rows, item.row, pub.worker)
    && rows[item.row].attempts == item.attempt
  }

  /** No row is twice on a worklist. */
  ghost predicate DistinctRows(items: seq<Item>) {
    forall i, j :: 0 <= i < j < |items| ==> items[i].row != items[j].row
  }

  /** Worklists of different publishers have no row in common. */
  ghost predicate Disjoint(a: seq<Item>, b: seq<Item>) {
    forall i, j :: 0 <= i < |a| && 0 <= j < |b| ==> a[i].row != b[j].row
  }

  /** A completed event is no longer being published under the claim it was completed for. */
  ghost predicate Over(rows: seq<Row>, item: Item) {
    && item.row < |rows| && item.attempt <= rows[item.row].attempts
    && !(rows[item.row].status.Publishing? && rows[item.row].attempts == item.attempt)
  }

  ghost predicate PublisherOk(rows: seq<Row>, now: Time, pub: Publisher) {
    && (forall i :: 0 <= i < |pub.worklist| ==> Owns(rows, pub, pub.worklist[i]))
    && DistinctRows(pub.worklist)
    && (!pub.head.Waiting? ==> pub.worklist != [])
    && (pub.head.Failing? ==>
          && pub.head.failedAt <= now
          && rows[pub.worklist[0].row].lockedAt.Some?
          && rows[pub.worklist[0].row].lockedAt.value <= pub.head.failedAt)
    && (forall item :: item in pub.finished ==> Over(rows, item))
    && (forall item :: item in pub.batch ==> item in pub.worklist || item in pub.finished)
  }

  ghost predicate Exclusive(s: State, now: Time) {
    && LockedIffPublishing(s.rows, now)
    && (forall p :: p in s.publishers ==> PublisherOk(s.rows, now, s.publishers[p]))
    && (forall p, q :: p in s.publishers && q in s.publishers && p != q
                       ==> Disjoint(s.publishers[p].worklist, s.publishers[q].worklist))
  }

  // ---- Published means delivered ----

  ghost predicate InLog(s: State, row: nat) {
    exists i :: 0 <= i < |s.log| && s.log[i].send < |s.wire| && s.wire[s.log[i].send].item.row == row
  }

  ghost predicate Sent(s: State, p: nat, item: Item, stillQueued: bool) {
    exists k :: 0 <= k < |s.wire| && s.wire[k].item == item && s.wire[k].publisher == p
                && (s.wire[k].queued ==> stillQueued)
  }

  ghost predicate NeverSent(wire: seq<Send>, item: Item) {
    forall k :: 0 <= k < |wire| ==> wire[k].item != item
  }

  ghost predicate InLogAs(s: State, k: nat) {
    exists i :: 0 <= i < |s.log| && s.log[i].send == k
  }

  /** Every `produce` belongs to its own attempt of its row. */
  ghost predicate OneSendPerAttempt(s: State) {
    && (forall k :: 0 <= k < |s.wire| ==>
          s.wire[k].item.row < |s.rows| && 1 <= s.wire[k].item.attempt <= s.rows[s.wire[k].item.row].attempts)
    && (forall j, k :: 0 <= j < k < |s.wire| ==> s.wire[j].item != s.wire[k].item)
  }

  /** The log holds each sent record at most once, on the topic of its row. */
  ghost predicate LogIsSent(s: State) {
    && (forall i :: 0 <= i < |s.log| ==>
          && s.log[i].send < |s.wire| && !s.wire[s.log[i].send].queued
          && s.wire[s.log[i].send].item.row < |s.rows|
          && s.log[i].lane.topic == s.rows[s.wire[s.log[i].send].item.row].topic)
    && (forall i, j :: 0 <= i < j < |s.log| ==> s.log[i].send != s.log[j].send)
  }

  /** A live producer has delivered what is no longer in its queue. */
  ghost predicate QueueOrLog(s: State) {
    && (forall k :: 0 <= k < |s.wire| && s.wire[k].publisher in s.publishers && !s.wire[k].queued ==> InLogAs(s, k))
    && (forall k :: 0 <= k < |s.wire| && s.wire[k].queued ==> s.wire[k].publisher in s.publishers)
  }

  ghost predicate HeadSent(s: State, p: nat)
    requires p in s.publishers
  {
    var pub := s.publishers[p];
    && (pub.worklist != [] && pub.head.Produced? ==> Sent(s, p, pub.worklist[0], true))
    && (pub.worklist != [] && pub.head.Delivered? ==> Sent(s, p, pub.worklist[0], false))
    && (forall i :: 0 <= i < |pub.worklist| && (i > 0 || pub.head.Waiting?) ==> NeverSent(s.wire, pub.worklist[i]))
  }

  ghost predicate Delivery(s: State) {
    && OneSendPerAttempt(s)
    && LogIsSent(s)
    && QueueOrLog(s)
    && (forall p :: p in s.publishers ==> HeadSent(s, p))
    && (forall r :: 0 <= r < |s.rows| && s.rows[r].status.Published? ==> InLog(s, r))
  }

  ghost predicate Inv(s: State, now: Time) {
    Exclusive(s, now) && Delivery(s)
  }

  // ---- Preservation of Exclusive ----

  lemma RowUntouched(rows: seq<Row>, after: seq<Row>, now: Time, later: Time, pub: Publisher)
    requires PublisherOk(rows, now, pub) && now <= later && |rows| <= |after|
    requires forall i :: 0 <= i < |pub.worklist| ==> after[pub.worklist[i].row] == rows[pub.worklist[i].row]
    requires forall item :: item in pub.finished ==> Over(after, item)
    ensures PublisherOk(after, later, pub)
  {
  }

  lemma LockingKeepsOver(rows: seq<Row>, worker: string, now: Time, picked: seq<nat>, item: Item)
    requires Over(rows, item) && forall i :: i in picked ==> i < |rows| && Claimable(rows[i], now)
    ensures Over(Locked(rows, worker, now, picked), item)
  {
  }

  lemma OthersSurviveClaim(s: State, was: Time, now: Time, p: nat, batch: nat, picked: seq<nat>, q: nat)
    requires Exclusive(s, was) && was <= now && Enabled(s, now, ClaimBatch(p, batch, picked))
    requires q in s.publishers
    ensures forall i :: 0 <= i < |s.publishers[q].worklist| ==> s.publishers[q].worklist[i].row !in picked
    ensures PublisherOk(Locked(s.rows, s.publishers[p].worker, now, picked), now, s.publishers[q])
  {
    var pub := s.publishers[q];
    var rows := Locked(s.rows, s.publishers[p].worker, now, picked);
    forall i | 0 <= i < |pub.worklist|
      ensures pub.worklist[i].row !in picked && rows[pub.worklist[i].row] == s.rows[pub.worklist[i].row]
    {
      assert Owns(s.rows, pub, pub.worklist[i]);
    }
    forall item | item in pub.finished ensures Over(rows, item) {
      LockingKeepsOver(s.rows, s.publishers[p].worker, now, picked, item);
    }
    RowUntouched(s.rows, rows, was, now, pub);
  }

  lemma ClaimantIsOk(s: State, now: Time, p: nat, batch: nat, picked: seq<nat>)
    requires Enabled(s, now, ClaimBatch(p, batch, picked))
    ensures var t := Next(s, now, ClaimBatch(p, batch, picked)); PublisherOk(t.rows, now, t.publishers[p])
    ensures forall i :: 0 <= i < |picked| ==> Claimed(s.rows, picked)[i].row in picked
  {
    var t := Next(s, now, ClaimBatch(p, batch, picked));
    var mine := t.publishers[p];
    forall i | 0 <= i < |picked| ensures Owns(t.rows, mine, mine.worklist[i]) && mine.worklist[i].row in picked {
      assert picked[i] in picked;
    }
  }

  lemma OtherIsApart(s: State, was: Time, now: Time, p: nat, batch: nat, picked: seq<nat>, q: nat)
    requires Exclusive(s, was) && was <= now && Enabled(s, now, ClaimBatch(p, batch, picked))
    requires q in s.publishers && q != p
    ensures var t := Next(s, now, ClaimBatch(p, batch, picked));
            && PublisherOk(t.rows, now, t.publishers[q])
            && Disjoint(t.publishers[p].worklist, t.publishers[q].worklist)
            && Disjoint(t.publishers[q].worklist, t.publishers[p].worklist)
  {
    ClaimantIsOk(s, now, p, batch, picked);
    OthersSurviveClaim(s, was, now, p, batch, picked, q);
  }

  lemma ClaimKeepsExclusive(s: State, was: Time, now: Time, p: nat, batch: nat, picked: seq<nat>)
    requires Exclusive(s, was) && was <= now && Enabled(s, now, ClaimBatch(p, batch, picked))
    ensures Exclusive(Next(s, now, ClaimBatch(p, batch, picked)), now)
  {
    var t := Next(s, now, ClaimBatch(p, batch, picked));
    ClaimantIsOk(s, now, p, batch, picked);
    forall q | q in t.publishers && q != p
      ensures PublisherOk(t.rows, now, t.publishers[q])
      ensures Disjoint(t.publishers[p].worklist, t.publishers[q].worklist)
      ensures Disjoint(t.publishers[q].worklist, t.publishers[p].worklist)
    {
      OtherIsApart(s, was, now, p, batch, picked, q);
    }
  }

  /** The two ways to complete the first event of a worklist. */
  lemma CompletionKeepsExclusive(s: State, was: Time, now: Time, p: nat, row: Row)
    requires Exclusive(s, was) && was <= now && Busy(s, p)
    requires var item := s.publishers[p].worklist[0];
             && row.attempts == s.rows[item.row].attempts && row.lockedAt.None? && row.lockedBy.None?
             && (row.status.Published? || row.status.Failed?)
    ensures var item := s.publishers[p].worklist[0];
            Exclusive(s.(rows := s.rows[item.row := row],
                         publishers := s.publishers[p := Finished(s.publishers[p])]), now)
  {
    var pub := s.publishers[p];
    var item := pub.worklist[0];
    assert Owns(s.rows, pub, item);
    var t := s.(rows := s.rows[item.row := row], publishers := s.publishers[p := Finished(pub)]);
    forall other | Over(s.rows, other) || other == item ensures Over(t.rows, other) {
    }
    forall q | q in t.publishers ensures PublisherOk(t.rows, now, t.publishers[q]) {
      if q == p {
        forall i | 0 <= i < |pub.worklist| - 1 ensures Owns(t.rows, t.publishers[p], pub.worklist[1..][i]) {
          assert Owns(s.rows, pub, pub.worklist[i + 1]);
        }
      } else {
        assert Disjoint(pub.worklist, s.publishers[q].worklist);
        forall i | 0 <= i < |s.publishers[q].worklist|
          ensures t.rows[s.publishers[q].worklist[i].row] == s.rows[s.publishers[q].worklist[i].row]
        {
          assert Owns(s.rows, s.publishers[q], s.publishers[q].worklist[i]);
        }
        RowUntouched(s.rows, t.rows, was, now, s.publishers[q]);
      }
    }
    forall q | q in t.publishers && q != p
      ensures Disjoint(t.publishers[p].worklist, t.publishers[q].worklist)
      ensures Disjoint(t.publishers[q].worklist, t.publishers[p].worklist)
    {
      assert Disjoint(pub.worklist, s.publishers[q].worklist);
      assert Disjoint(s.publishers[q].worklist, pub.worklist);
    }
  }

  lemma HeadKeepsExclusive(s: State, was: Time, now: Time, p: nat, head: Head)
    requires Exclusive(s, was) && was <= now && Busy(s, p) && (head.Failing? ==> head.failedAt == now)
    ensures Exclusive(WithHead(s, p, head), now)
  {
    var t := WithHead(s, p, head);
    var pub := s.publishers[p];
    assert Owns(s.rows, pub, pub.worklist[0]);
    forall q | q in t.publishers ensures PublisherOk(t.rows, now, t.publishers[q]) {
      assert PublisherOk(s.rows, was, s.publishers[q]);
      forall i | 0 <= i < |t.publishers[q].worklist|
        ensures Owns(t.rows, t.publishers[q], t.publishers[q].worklist[i])
      {
        assert Owns(s.rows, s.publishers[q], s.publishers[q].worklist[i]);
      }
    }
    forall q, r | q in t.publishers && r in t.publishers && q != r
      ensures Disjoint(t.publishers[q].worklist, t.publishers[r].worklist)
    {
      assert Disjoint(s.publishers[q].worklist, s.publishers[r].worklist);
    }
  }

  lemma InsertKeepsExclusive(s: State, was: Time, now: Time, e: Event)
    requires Exclusive(s, was) && was <= now
    ensures Exclusive(Next(s, now, Insert(e)), now)
  {
    var t := Next(s, now, Insert(e));
    forall p | p in t.publishers ensures PublisherOk(t.rows, now, t.publishers[p]) {
      var pub := s.publishers[p];
      forall i | 0 <= i < |pub.worklist| ensures t.rows[pub.worklist[i].row] == s.rows[pub.worklist[i].row] {
        assert Owns(s.rows, pub, pub.worklist[i]);
      }
      forall item | item in pub.finished ensures Over(t.rows, item) {
        assert Over(s.rows, item);
      }
      RowUntouched(s.rows, t.rows, was, now, pub);
    }
  }

  lemma StepKeepsExclusive(s: State, was: Time, now: Time, a: Step)
    requires Exclusive(s, was) && was <= now && Enabled(s, now, a)
    ensures Exclusive(Next(s, now, a), now)
  {
    match a
    case Insert(e) => InsertKeepsExclusive(s, was, now, e);
    case ClaimBatch(p, batch, picked) => ClaimKeepsExclusive(s, was, now, p, batch, picked);
    case Produce(p) =>
      HeadKeepsExclusive(s, was, now, p, Produced);
      SameWorklists(WithHead(s, p, Produced), Next(s, now, a), now);
    case CannotProduce(p) => HeadKeepsExclusive(s, was, now, p, Failing(now));
    case Deliver(k, partition) => SameWorklistsLater(s, Next(s, now, a), was, now);
    case FlushEmpty(p) => HeadKeepsExclusive(s, was, now, p, Delivered);
    case FlushTimesOut(p) => HeadKeepsExclusive(s, was, now, p, Failing(now));
    case CompletePublished(p) =>
      CompletionKeepsExclusive(s, was, now, p, Complete(s.rows[s.publishers[p].worklist[0].row], true, None));
    case CompletionRaises(p) => HeadKeepsExclusive(s, was, now, p, Failing(now));
    case RecordFailure(p) =>
      var item := s.publishers[p].worklist[0];
      CompletionKeepsExclusive(s, was, now, p,
        Complete(s.rows[item.row], false, Some(RetryAt(s.publishers[p].head.failedAt, item.attempt))));
    case Start(p, worker) => SomeWorklists(s, Next(s, now, a), was, now);
    case Kill(p) => SomeWorklists(s, Next(s, now, a), was, now);
  }

  lemma SameWorklists(s: State, t: State, now: Time)
    requires Exclusive(s, now) && t.rows == s.rows && t.publishers == s.publishers
    ensures Exclusive(t, now)
  {
  }

  lemma SameWorklistsLater(s: State, t: State, was: Time, now: Time)
    requires Exclusive(s, was) && was <= now && t.rows == s.rows && t.publishers == s.publishers
    ensures Exclusive(t, now)
  {
    SomeWorklists(s, t, was, now);
  }

  lemma SomeWorklists(s: State, t: State, was: Time, now: Time)
    requires Exclusive(s, was) && was <= now && t.rows == s.rows
    requires forall p :: p in t.publishers ==>
               (p in s.publishers && t.publishers[p] == s.publishers[p])
               || t.publishers[p] == Publisher(t.publishers[p].worker, [], [], Waiting, {})
    ensures Exclusive(t, now)
  {
    forall p | p in t.publishers ensures PublisherOk(t.rows, now, t.publishers[p]) {
      if p in s.publishers && t.publishers[p] == s.publishers[p] {
        forall i | 0 <= i < |t.publishers[p].worklist| ensures t.publishers[p].worklist[i].row < |s.rows| {
          assert Owns(s.rows, s.publishers[p], s.publishers[p].worklist[i]);
        }
        RowUntouched(s.rows, t.rows, was, now, t.publishers[p]);
      }
    }
  }

  // ---- Preservation of Delivery ----

  /** What later steps do to the records already sent: none is forgotten, no entry of the log is. */
  ghost predicate Extends(s: State, t: State) {
    && |s.wire| <= |t.wire| && s.log <= t.log
    && (forall k :: 0 <= k < |s.wire| ==>
          && t.wire[k].item == s.wire[k].item && t.wire[k].publisher == s.wire[k].publisher
          && (t.wire[k].queued ==> s.wire[k].queued))
  }

  lemma InLogStays(s: State, t: State, row: nat)
    requires Extends(s, t) && InLog(s, row)
    ensures InLog(t, row)
  {
    var i :| 0 <= i < |s.log| && s.log[i].send < |s.wire| && s.wire[s.log[i].send].item.row == row;
    assert t.log[i] == s.log[i];
  }

  lemma SentStays(s: State, t: State, p: nat, item: Item, stillQueued: bool)
    requires Extends(s, t) && Sent(s, p, item, stillQueued)
    ensures Sent(t, p, item, stillQueued)
  {
    var k :| 0 <= k < |s.wire| && s.wire[k].item == item && s.wire[k].publisher == p
             && (s.wire[k].queued ==> stillQueued);
    assert t.wire[k].item == item;
  }

  lemma InLogAsStays(s: State, t: State, k: nat)
    requires Extends(s, t) && InLogAs(s, k)
    ensures InLogAs(t, k)
  {
    var i :| 0 <= i < |s.log| && s.log[i].send == k;
    assert t.log[i] == s.log[i];
  }

  /** A publisher that did not move keeps what it sent. */
  lemma HeadStays(s: State, t: State, p: nat)
    requires Extends(s, t) && p in s.publishers && p in t.publishers && HeadSent(s, p)
    requires t.publishers[p].worklist == s.publishers[p].worklist && t.publishers[p].head == s.publishers[p].head
    requires forall i, k :: 0 <= i < |s.publishers[p].worklist| && |s.wire| <= k < |t.wire|
                            ==> t.wire[k].item != s.publishers[p].worklist[i]
    ensures HeadSent(t, p)
  {
    var pub := s.publishers[p];
    if pub.worklist != [] && pub.head.Produced? {
      SentStays(s, t, p, pub.worklist[0], true);
    }
    if pub.worklist != [] && pub.head.Delivered? {
      SentStays(s, t, p, pub.worklist[0], false);
    }
    forall i | 0 <= i < |pub.worklist| && (i > 0 || pub.head.Waiting?) ensures NeverSent(t.wire, pub.worklist[i]) {
      assert NeverSent(s.wire, pub.worklist[i]);
    }
  }

  ghost predicate SameColumns(s: State, t: State) {
    && |s.rows| <= |t.rows|
    && forall r :: 0 <= r < |s.rows| ==> t.rows[r].topic == s.rows[r].topic && t.rows[r].attempts >= s.rows[r].attempts
  }

  /** Steps that neither produce nor deliver nor kill. */
  lemma QuietStep(s: State, t: State)
    requires Delivery(s) && SameColumns(s, t) && t.wire == s.wire && t.log == s.log
    requires forall p :: p in s.publishers ==> p in t.publishers
    requires forall p :: p in t.publishers && p !in s.publishers ==>
               forall k :: 0 <= k < |s.wire| ==> s.wire[k].publisher != p
    requires forall p :: p in t.publishers ==> HeadSent(t, p)
    requires forall r :: 0 <= r < |t.rows| && t.rows[r].status.Published? ==>
               (r < |s.rows| && s.rows[r].status.Published?) || InLog(s, r)
    ensures Delivery(t)
  {
    forall r | 0 <= r < |t.rows| && t.rows[r].status.Published? ensures InLog(t, r) {
      InLogStays(s, t, r);
    }
    forall k | 0 <= k < |t.wire| && t.wire[k].publisher in t.publishers && !t.wire[k].queued ensures InLogAs(t, k) {
      InLogAsStays(s, t, k);
    }
  }

  /** Steps that touch only the records on the wire. */
  lemma WireStep(s: State, t: State)
    requires Delivery(s) && Extends(s, t) && t.rows == s.rows
    requires OneSendPerAttempt(t) && LogIsSent(t) && QueueOrLog(t)
    requires forall p :: p in t.publishers ==> HeadSent(t, p)
    ensures Delivery(t)
  {
    forall r | 0 <= r < |t.rows| && t.rows[r].status.Published? ensures InLog(t, r) {
      InLogStays(s, t, r);
    }
  }

  lemma ProduceKeepsOneSend(s: State, now: Time, p: nat)
    requires Exclusive(s, now) && OneSendPerAttempt(s) && Enabled(s, now, Produce(p)) && HeadSent(s, p)
    ensures OneSendPerAttempt(Next(s, now, Produce(p)))
  {
    assert Owns(s.rows, s.publishers[p], s.publishers[p].worklist[0]);
    assert NeverSent(s.wire, s.publishers[p].worklist[0]);
  }

  lemma ProduceKeepsHeads(s: State, now: Time, p: nat, q: nat)
    requires Exclusive(s, now) && Enabled(s, now, Produce(p)) && q in s.publishers
    requires HeadSent(s, p) && HeadSent(s, q)
    ensures HeadSent(Next(s, now, Produce(p)), q)
  {
    var t := Next(s, now, Produce(p));
    var pub := s.publishers[p];
    assert Extends(s, t);
    assert t.wire[|s.wire|] == Send(pub.worklist[0], p, true);
    if q == p {
      assert DistinctRows(pub.worklist);
      forall i | 0 < i < |pub.worklist| ensures NeverSent(t.wire, pub.worklist[i]) {
        assert NeverSent(s.wire, pub.worklist[i]);
      }
    } else {
      assert Disjoint(pub.worklist, s.publishers[q].worklist);
      HeadStays(s, t, q);
    }
  }

  lemma ProduceKeepsQueueOrLog(s: State, now: Time, p: nat)
    requires QueueOrLog(s) && LogIsSent(s) && Enabled(s, now, Produce(p))
    ensures QueueOrLog(Next(s, now, Produce(p))) && LogIsSent(Next(s, now, Produce(p)))
  {
    var t := Next(s, now, Produce(p));
    forall k | 0 <= k < |t.wire| && t.wire[k].publisher in t.publishers && !t.wire[k].queued ensures InLogAs(t, k) {
      InLogAsStays(s, t, k);
    }
  }

  lemma ProduceKeepsDelivery(s: State, now: Time, p: nat)
    requires Inv(s, now) && Enabled(s, now, Produce(p))
    ensures Delivery(Next(s, now, Produce(p)))
  {
    var t := Next(s, now, Produce(p));
    assert HeadSent(s, p);
    ProduceKeepsOneSend(s, now, p);
    ProduceKeepsQueueOrLog(s, now, p);
    forall q | q in t.publishers ensures HeadSent(t, q) {
      ProduceKeepsHeads(s, now, p, q);
    }
    WireStep(s, t);
  }

  lemma DeliverKeepsQueueOrLog(s: State, now: Time, k: nat, partition: nat)
    requires QueueOrLog(s) && Enabled(s, now, Deliver(k, partition))
    ensures QueueOrLog(Next(s, now, Deliver(k, partition)))
  {
    var t := Next(s, now, Deliver(k, partition));
    forall j | 0 <= j < |t.wire| && t.wire[j].publisher in t.publishers && !t.wire[j].queued ensures InLogAs(t, j) {
      if j == k {
        assert t.log[|s.log|].send == k;
      } else {
        InLogAsStays(s, t, j);
      }
    }
  }

  lemma DeliverKeepsLog(s: State, now: Time, k: nat, partition: nat)
    requires LogIsSent(s) && OneSendPerAttempt(s) && Enabled(s, now, Deliver(k, partition))
    ensures LogIsSent(Next(s, now, Deliver(k, partition))) && OneSendPerAttempt(Next(s, now, Deliver(k, partition)))
  {
  }

  lemma DeliverKeepsDelivery(s: State, now: Time, k: nat, partition: nat)
    requires Delivery(s) && Enabled(s, now, Deliver(k, partition))
    ensures Delivery(Next(s, now, Deliver(k, partition)))
  {
    var t := Next(s, now, Deliver(k, partition));
    DeliverKeepsQueueOrLog(s, now, k, partition);
    DeliverKeepsLog(s, now, k, partition);
    forall q | q in t.publishers ensures HeadSent(t, q) {
      HeadStays(s, t, q);
    }
    WireStep(s, t);
  }

  lemma KillKeepsDelivery(s: State, now: Time, p: nat)
    requires Delivery(s) && Enabled(s, now, Kill(p))
    ensures Delivery(Next(s, now, Kill(p)))
  {
    var t := Next(s, now, Kill(p));
    forall q | q in t.publishers ensures HeadSent(t, q) {
      HeadStays(s, t, q);
    }
    forall j | 0 <= j < |t.wire| && t.wire[j].publisher in t.publishers && !t.wire[j].queued ensures InLogAs(t, j) {
      InLogAsStays(s, t, j);
    }
    WireStep(s, t);
  }

  lemma ClaimKeepsDelivery(s: State, now: Time, p: nat, batch: nat, picked: seq<nat>)
    requires Inv(s, now) && Enabled(s, now, ClaimBatch(p, batch, picked))
    ensures Delivery(Next(s, now, ClaimBatch(p, batch, picked)))
  {
    var t := Next(s, now, ClaimBatch(p, batch, picked));
    forall q | q in t.publishers ensures HeadSent(t, q) {
      if q == p {
        forall i | 0 <= i < |picked| ensures NeverSent(t.wire, t.publishers[p].worklist[i]) {
          assert picked[i] in picked;
        }
      } else {
        HeadStays(s, t, q);
      }
    }
    QuietStep(s, t);
  }

  /** Moving the head of one worklist, or dropping it, once it is known to be in the log if it is published. */
  lemma OnePublisherMoves(s: State, t: State, p: nat)
    requires Delivery(s) && SameColumns(s, t) && t.wire == s.wire && t.log == s.log
    requires p in s.publishers && p in t.publishers && t.publishers == s.publishers[p := t.publishers[p]]
    requires HeadSent(t, p)
    requires forall r :: 0 <= r < |t.rows| && t.rows[r].status.Published? ==>
               (r < |s.rows| && s.rows[r].status.Published?) || InLog(s, r)
    ensures Delivery(t)
  {
    forall q | q in t.publishers ensures HeadSent(t, q) {
      if q != p {
        HeadStays(s, t, q);
      }
    }
    QuietStep(s, t);
  }

  /** A flush that leaves nothing queued has delivered the head. */
  lemma FlushedIsDelivered(s: State, p: nat)
    requires Delivery(s) && Busy(s, p) && s.publishers[p].head.Produced? && !HasQueued(s, p)
    ensures HeadSent(WithHead(s, p, Delivered), p)
  {
    var item := s.publishers[p].worklist[0];
    assert HeadSent(s, p);
    var k :| 0 <= k < |s.wire| && s.wire[k].item == item && s.wire[k].publisher == p;
    assert Sent(WithHead(s, p, Delivered), p, item, false);
    forall i | 0 < i < |s.publishers[p].worklist| ensures NeverSent(s.wire, s.publishers[p].worklist[i]) {
    }
  }

  lemma FinishedHeadSent(s: State, t: State, p: nat)
    requires Busy(s, p) && HeadSent(s, p) && t.wire == s.wire
    requires p in t.publishers && t.publishers[p] == Finished(s.publishers[p])
    ensures HeadSent(t, p)
  {
    var tail := s.publishers[p].worklist[1..];
    forall i | 0 <= i < |tail| ensures NeverSent(t.wire, tail[i]) {
      assert NeverSent(s.wire, s.publishers[p].worklist[i + 1]);
    }
  }

  /** When the flush has returned nothing outstanding, the row of the head is in the log. */
  lemma DeliveredIsInLog(s: State, p: nat)
    requires Delivery(s) && Busy(s, p) && s.publishers[p].head.Delivered?
    ensures InLog(s, s.publishers[p].worklist[0].row)
  {
    var item := s.publishers[p].worklist[0];
    assert HeadSent(s, p);
    var k :| 0 <= k < |s.wire| && s.wire[k].item == item && s.wire[k].publisher == p && !s.wire[k].queued;
    assert InLogAs(s, k);
    var i :| 0 <= i < |s.log| && s.log[i].send == k;
  }

  lemma CompletionKeepsDelivery(s: State, now: Time, p: nat, published: bool)
    requires Inv(s, now)
    requires Enabled(s, now, if published then CompletePublished(p) else RecordFailure(p))
    ensures Delivery(Next(s, now, if published then CompletePublished(p) else RecordFailure(p)))
  {
    var t := Next(s, now, if published then CompletePublished(p) else RecordFailure(p));
    if published {
      DeliveredIsInLog(s, p);
    }
    FinishedHeadSent(s, t, p);
    OnePublisherMoves(s, t, p);
  }

  lemma MoveHeadKeepsDelivery(s: State, p: nat, head: Head)
    requires Delivery(s) && Busy(s, p) && (head.Failing? || head.Delivered?)
    requires head.Delivered? ==> s.publishers[p].head.Produced? && !HasQueued(s, p)
    ensures Delivery(WithHead(s, p, head))
  {
    assert HeadSent(s, p);
    if head.Delivered? {
      FlushedIsDelivered(s, p);
    } else {
      assert HeadSent(WithHead(s, p, head), p) by {
        forall i | 0 < i < |s.publishers[p].worklist| ensures NeverSent(s.wire, s.publishers[p].worklist[i]) {
        }
      }
    }
    OnePublisherMoves(s, WithHead(s, p, head), p);
  }

  lemma StartKeepsDelivery(s: State, now: Time, p: nat, worker: string)
    requires Inv(s, now) && Enabled(s, now, Start(p, worker))
    ensures Delivery(Next(s, now, Start(p, worker)))
  {
    var t := Next(s, now, Start(p, worker));
    forall q | q in t.publishers ensures HeadSent(t, q) {
      if q != p {
        HeadStays(s, t, q);
      }
    }
    QuietStep(s, t);
  }

  lemma InsertKeepsDelivery(s: State, now: Time, e: Event)
    requires Inv(s, now)
    ensures Delivery(Next(s, now, Insert(e)))
  {
    var t := Next(s, now, Insert(e));
    forall q | q in t.publishers ensures HeadSent(t, q) {
      HeadStays(s, t, q);
    }
    QuietStep(s, t);
  }

  lemma StepKeepsDelivery(s: State, now: Time, a: Step)
    requires Inv(s, now) && Enabled(s, now, a)
    ensures Delivery(Next(s, now, a))
  {
    match a
    case Insert(e) => InsertKeepsDelivery(s, now, e);
    case Start(p, worker) => StartKeepsDelivery(s, now, p, worker);
    case ClaimBatch(p, batch, picked) => ClaimKeepsDelivery(s, now, p, batch, picked);
    case Produce(p) => ProduceKeepsDelivery(s, now, p);
    case CannotProduce(p) => MoveHeadKeepsDelivery(s, p, Failing(now));
    case Deliver(k, partition) => DeliverKeepsDelivery(s, now, k, partition);
    case FlushEmpty(p) => MoveHeadKeepsDelivery(s, p, Delivered);
    case FlushTimesOut(p) => MoveHeadKeepsDelivery(s, p, Failing(now));
    case CompletePublished(p) => CompletionKeepsDelivery(s, now, p, true);
    case CompletionRaises(p) => MoveHeadKeepsDelivery(s, p, Failing(now));
    case RecordFailure(p) => CompletionKeepsDelivery(s, now, p, false);
    case Kill(p) => KillKeepsDelivery(s, now, p);
  }

  lemma LaterIsExclusive(s: State, was: Time, now: Time)
    requires Exclusive(s, was) && was <= now
    ensures Exclusive(s, now)
  {
    SomeWorklists(s, s, was, now);
  }

  lemma StepKeepsInv(s: State, was: Time, now: Time, a: Step)
    requires Inv(s, was) && was <= now && Enabled(s, now, a)
    ensures Inv(Next(s, now, a), now)
  {
    LaterIsExclusive(s, was, now);
    StepKeepsExclusive(s, was, now, a);
    StepKeepsDelivery(s, now, a);
  }

  // ---- What follows in every reachable state ----

  /** The 'not claimed by worker' exception is unreachable: the head of every live worklist is held by its publisher. */
  lemma CompletionIsAlwaysAccepted(s: State, now: Time, p: nat)
    requires Inv(s, now) && Busy(s, p)
    ensures HoldsHead(s, p)
  {
    assert Owns(s.rows, s.publishers[p], s.publishers[p].worklist[0]);
  }

  /** A `publish_batch` that returns normally, having emptied its worklist, leaves none of the rows it claimed in
      `publishing` under that claim. */
  lemma BatchIsOver(s: State, now: Time, p: nat, item: Item)
    requires Inv(s, now) && p in s.publishers && s.publishers[p].worklist == [] && item in s.publishers[p].batch
    ensures item.row < |s.rows|
    ensures s.rows[item.row].status.Publishing? ==> s.rows[item.row].attempts > item.attempt
  {
    assert Over(s.rows, item);
  }

  /** The `produce` calls for a row, delivered, still queued or lost. */
  ghost function SendsOf(s: State, r: nat): set<nat> {
    set k: nat | k < |s.wire| && s.wire[k].item.row == r
  }

  /** No row is ever produced more often than its attempt count says. */
  lemma SendsBoundedByAttempts(s: State, r: nat)
    requires OneSendPerAttempt(s) && r < |s.rows|
    ensures |SendsOf(s, r)| <= s.rows[r].attempts
  {
    CountSends(s, r, SendsOf(s, r), s.rows[r].attempts);
  }

  lemma {:induction false} CountSends(s: State, r: nat, sends: set<nat>, bound: nat)
    requires OneSendPerAttempt(s)
    requires forall k :: k in sends ==> k < |s.wire| && s.wire[k].item.row == r && s.wire[k].item.attempt <= bound
    ensures |sends| <= bound
    decreases bound
  {
    if sends != {} {
      if k :| k in sends && s.wire[k].item.attempt == bound {
        CountSends(s, r, sends - {k}, bound - 1);
      } else {
        CountSends(s, r, sends, bound - 1);
      }
    }
  }

  // ---- The table under the relay ----

  function TableOf(s: State, now: Time): Progress.Table {
    Progress.Table(s.rows, now)
  }

  /** Every step is a step of the outbox table, so the waiting bound and the backoff hold of every relay run. */
  lemma StepsAreTableSteps(s: State, was: Time, now: Time, a: Step) returns (act: Progress.Action)
    requires Inv(s, was) && was < now && Enabled(s, now, a)
    ensures Progress.Step(TableOf(s, was), act, TableOf(Next(s, now, a), now))
    ensures a.ClaimBatch? ==> act == Progress.Claim(s.publishers[a.p].worker, a.batch, a.picked)
    ensures act.Claim? ==> a.ClaimBatch?
    ensures act.Fail? ==> a.RecordFailure? && act.id == s.publishers[a.p].worklist[0].row
                          && act.failedAt == s.publishers[a.p].head.failedAt
  {
    match a
    case Insert(e) => act := Progress.Insert(e, TopicOf(e));
    case ClaimBatch(p, batch, picked) => act := Progress.Claim(s.publishers[p].worker, batch, picked);
    case CompletePublished(p) => act := Progress.Succeed(s.publishers[p].worklist[0].row, s.publishers[p].worker);
    case RecordFailure(p) =>
      assert Owns(s.rows, s.publishers[p], s.publishers[p].worklist[0]);
      act := Progress.Fail(s.publishers[p].worklist[0].row, s.publishers[p].worker, s.publishers[p].head.failedAt);
    case _ => act := Progress.Idle;
  }
}
