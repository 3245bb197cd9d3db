/** The `ingestion_outbox` table and its two database functions, claim and complete. */
module Outbox {
  import opened Basics
  import opened Domain

  datatype Status = Pending | Publishing | Published | Failed

  // A row is identified by its position: rows are only ever appended.
  datatype Row = Row(event: Event, topic: Topic, status: Status, attempts: nat, availableAt: Time, createdAt: Time,
                     lockedAt: Option<Time>, lockedBy: Option<string>)

  function NewRow(event: Event, topic: Topic, now: Time): Row {
    Row(event, topic, Pending, 0, now, now, None, None)
  }

  predicate Claimable(r: Row, now: Time) {
    (r.status.Pending? || r.status.Failed?) && r.availableAt <= now
  }

  /** ORDER BY available_at, created_at. */
  predicate Ahead(a: Row, b: Row) {
    a.availableAt < b.availableAt || (a.availableAt == b.availableAt && a.createdAt < b.createdAt)
  }

  /** The rows a claim may return: at most `batch` claimable rows, as many as there are, and none of the rows
      left behind is ahead of a returned one. Rows with equal keys may be chosen in any way. */
  ghost predicate IsClaim(rows: seq<Row>, now: Time, batch: nat, picked: seq<nat>) {
    && |picked| <= batch
    && Distinct(picked)
    && (forall i :: i in picked ==> i < |rows| && Claimable(rows[i], now))
    && (|picked| < batch ==> forall u: nat :: u < |rows| && Claimable(rows[u], now) ==> u in picked)
    && (forall u: nat, c: nat :: u < |rows| && Claimable(rows[u], now) && u !in picked && c in picked
                                 ==> !Ahead(rows[u], rows[c]))
  }

  function Lock(r: Row, worker: string, now: Time): Row {
    r.(status := Publishing, lockedAt := Some(now), lockedBy := Some(worker), attempts := r.attempts + 1)
  }

  function Locked(rows: seq<Row>, worker: string, now: Time, picked: seq<nat>): (r: seq<Row>)
    ensures |r| == |rows|
  {
    seq(|rows|, i requires 0 <= i < |rows| => if i in picked then Lock(rows[i], worker, now) else rows[i])
  }

  predicate HeldBy(rows: seq<Row>, id: nat, worker: string) {
    id < |rows| && rows[id].status.Publishing? && rows[id].lockedBy == Some(worker)
  }

  function Complete(r: Row, succeeded: bool, retryAt: Option<Time>): Row {
    r.(status := if succeeded then Published else Failed,
       availableAt := if retryAt.Some? then retryAt.value else r.availableAt,
       lockedAt := None, lockedBy := None)
  }

  function Pow2(n: nat): (r: nat)
    ensures r >= 1
  {
    if n == 0 then 1 else 2 * Pow2(n - 1)
  }

  /** Seconds before the next attempt: min(300, 2 ** min(attempt_count, 8)). */
  function RetrySeconds(attempts: nat): nat {
    Min(300, Pow2(Min(attempts, 8)))
  }

  function RetryAt(failedAt: Time, attempts: nat): Time {
    failedAt + RetrySeconds(attempts) * SECOND
  }

  const MAX_BATCH: nat := 1000

  class OutboxTable {
    var rows: seq<Row>

    constructor ()
      ensures rows == []
    {
      rows := [];
    }

    /** The front-most row a claim has not taken yet; ties go to the lowest position. */
    method Front(now: Time, picked: seq<nat>) returns (best: Option<nat>)
      ensures best.None? ==> forall u: nat :: u < |rows| && Claimable(rows[u], now) ==> u in picked
      ensures best.Some? ==> best.value < |rows| && Claimable(rows[best.value], now) && best.value !in picked
      ensures best.Some? ==> forall u: nat :: u < |rows| && Claimable(rows[u], now) && u !in picked
                                              ==> !Ahead(rows[u], rows[best.value])
    {
      best := None;
      for i := 0 to |rows|
        invariant best.None? ==> forall u: nat :: u < i && Claimable(rows[u], now) ==> u in picked
        invariant best.Some? ==> best.value < i && Claimable(rows[best.value], now) && best.value !in picked
        invariant best.Some? ==> forall u: nat :: u < i && Claimable(rows[u], now) && u !in picked
                                                  ==> !Ahead(rows[u], rows[best.value])
      {
        if Claimable(rows[i], now) && i !in picked && (best.None? || Ahead(rows[i], rows[best.value])) {
          best := Some(i);
        }
      }
    }

    /** `rag.claim_outbox_events`; None stands for the raised range error. */
    method ClaimOutboxEvents(worker: string, batch: int, now: Time) returns (claimed: Option<seq<nat>>)
      modifies this
      ensures claimed.Some? <==> 1 <= batch <= MAX_BATCH
      ensures claimed.None? ==> rows == old(rows)
      ensures claimed.Some? ==> IsClaim(old(rows), now, batch, claimed.value)
      ensures claimed.Some? ==> rows == Locked(old(rows), worker, now, claimed.value)
      ensures claimed.Some? <==> 1 <= batch <= 1000
      ensures claimed.Some? ==>
                forall i :: i in claimed.value ==>
                  && i < |old(rows)| && old(rows)[i].status in {Pending, Failed} && old(rows)[i].availableAt <= now
                  && rows[i] == old(rows)[i].(status := Publishing, attempts := old(rows)[i].attempts + 1,
                                              lockedAt := Some(now), lockedBy := Some(worker))
      ensures claimed.Some? ==>
                forall u: nat :: u < |old(rows)| && u !in claimed.value ==>
                  && rows[u] == old(rows)[u]
                  && (old(rows)[u].status in {Pending, Failed} && old(rows)[u].availableAt <= now ==>
                        && |claimed.value| == batch
                        && forall i :: i in claimed.value ==>
                             || old(rows)[i].availableAt < old(rows)[u].availableAt
                             || (old(rows)[i].availableAt == old(rows)[u].availableAt
                                 && old(rows)[i].createdAt <= old(rows)[u].createdAt))
    {
      if batch < 1 || batch > MAX_BATCH {
        return None;
      }
      var picked: seq<nat> := [];
      var open := true;
      while open && |picked| < batch
        invariant rows == old(rows)
        invariant |picked| <= batch && Distinct(picked)
        invariant forall i :: i in picked ==> i < |rows| && Claimable(rows[i], now)
        invariant !open ==> forall u: nat :: u < |rows| && Claimable(rows[u], now) ==> u in picked
        invariant forall u: nat, c: nat :: u < |rows| && Claimable(rows[u], now) && u !in picked && c in picked
                                           ==> !Ahead(rows[u], rows[c])
        decreases open, batch - |picked|
      {
        var next := Front(now, picked);
        if next.Some? {
          picked := picked + [next.value];
        } else {
          open := false;
        }
      }
      rows := Locked(rows, worker, now, picked);
      claimed := Some(picked);
    }

    /** `rag.complete_outbox_event`; `found` is false when it raises 'not claimed by worker'. */
    method CompleteOutboxEvent(id: nat, worker: string, succeeded: bool, retryAt: Option<Time>)
      returns (found: bool)
      modifies this
      ensures found <==> HeldBy(old(rows), id, worker)
      ensures !found ==> rows == old(rows)
      ensures found ==> rows == old(rows)[id := Complete(old(rows)[id], succeeded, retryAt)]
      ensures found <==>
                id < |old(rows)| && old(rows)[id].status == Publishing && old(rows)[id].lockedBy == Some(worker)
      ensures found ==>
                var was := old(rows)[id];
                && |rows| == |old(rows)| && rows[..id] == old(rows)[..id] && rows[id + 1..] == old(rows)[id + 1..]
                && (succeeded ==> rows[id].status == Published) && (!succeeded ==> rows[id].status == Failed)
                && (retryAt.None? ==> rows[id].availableAt == was.availableAt)
                && (retryAt.Some? ==> rows[id].availableAt == retryAt.value)
                && rows[id].lockedAt == None && rows[id].lockedBy == None
                && rows[id].event == was.event && rows[id].topic == was.topic && rows[id].attempts == was.attempts
                && rows[id].createdAt == was.createdAt
    {
      found := HeldBy(rows, id, worker);
      if found {
        rows := rows[id := Complete(rows[id], succeeded, retryAt)];
      }
    }
  }
}
