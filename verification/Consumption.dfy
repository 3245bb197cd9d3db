/** Polling, handling and committing a partitioned log, with a bounded number of records in flight, across crashes
    and restarts. Offsets are positions in the log of all partitions together, which keeps the order of each. */
module Consumption {
  import opened Domain

  datatype Lane = Lane(topic: Topic, partition: nat)

  // One consumer process. `position` is where each partition is read next, `committed` what a restart goes back to;
  // `done` are the in-flight records whose handler has returned.
  datatype Loop = Loop(position: map<nat, nat>, committed: map<nat, nat>, inflight: set<nat>, done: set<nat>)

  const FRESH_LOOP := Loop(map[], map[], {}, {})

  function At(offsets: map<nat, nat>, partition: nat): nat {
    if partition in offsets then offsets[partition] else 0
  }

  // ---- Steps of the loop ----

  /** Record `i` is the next one of its partition. */
  predicate IsNext(lanes: seq<Lane>, topic: Topic, loop: Loop, i: nat) {
    && i < |lanes| && lanes[i].topic == topic
    && At(loop.position, lanes[i].partition) <= i
    && forall j :: At(loop.position, lanes[i].partition) <= j < i ==> lanes[j] != lanes[i]
  }

  /** `poll` returns record `i`: only while there is a free slot. */
  predicate CanPoll(lanes: seq<Lane>, topic: Topic, slots: nat, loop: Loop, i: nat) {
    |loop.inflight| < slots && IsNext(lanes, topic, loop, i)
  }

  function Poll(lanes: seq<Lane>, loop: Loop, i: nat): Loop
    requires i < |lanes|
  {
    loop.(position := loop.position[lanes[i].partition := i + 1], inflight := loop.inflight + {i},
          done := loop.done - {i})
  }

  function Return(loop: Loop, i: nat): Loop {
    loop.(done := loop.done + {i})
  }

  /** `commit(message)` after the handler returned. */
  function Commit(lanes: seq<Lane>, loop: Loop, i: nat): Loop
    requires i < |lanes|
  {
    loop.(committed := loop.committed[lanes[i].partition := i + 1], inflight := loop.inflight - {i},
          done := loop.done - {i})
  }

  function Restart(loop: Loop): Loop {
    Loop(loop.committed, loop.committed, {}, {})
  }

  /** A restart reads each partition on from its committed offset: what was polled and not committed comes again, in
      order, and nothing below the offset does. */
  lemma RestartResumes(lanes: seq<Lane>, topic: Topic, slots: nat, loop: Loop, i: nat)
    requires slots >= 1
    ensures CanPoll(lanes, topic, slots, Restart(loop), i) <==>
              && i < |lanes| && lanes[i].topic == topic && At(loop.committed, lanes[i].partition) <= i
              && forall j :: At(loop.committed, lanes[i].partition) <= j < i ==> lanes[j] != lanes[i]
    ensures At(Restart(loop).committed, i) == At(loop.committed, i)
  {
  }

  // ---- Offset safety ----

  /** Every record of the topic below the committed offset of its partition has been handled. */
  ghost predicate Safe(lanes: seq<Lane>, topic: Topic, handled: set<nat>, loop: Loop) {
    forall i :: 0 <= i < |lanes| && lanes[i].topic == topic && i < At(loop.committed, lanes[i].partition)
                ==> i in handled
  }

  ghost predicate Inv(lanes: seq<Lane>, topic: Topic, handled: set<nat>, loop: Loop) {
    && Safe(lanes, topic, handled, loop)
    && loop.done <= loop.inflight && loop.done <= handled
    && (forall i :: i in loop.inflight ==>
          i < |lanes| && lanes[i].topic == topic && i < At(loop.position, lanes[i].partition))
    && (forall i, j :: i in loop.inflight && j in loop.inflight ==> i == j)
    && (forall p :: At(loop.committed, p) <= At(loop.position, p) <= |lanes|)
    && (forall i :: 0 <= i < |lanes| && lanes[i].topic == topic && i < At(loop.position, lanes[i].partition)
                    ==> i in handled || i in loop.inflight)
  }

  lemma GrowKeepsInv(lanes: seq<Lane>, more: seq<Lane>, topic: Topic, handled: set<nat>, extra: set<nat>, loop: Loop)
    requires Inv(lanes, topic, handled, loop) && lanes <= more && handled <= extra
    ensures Inv(more, topic, extra, loop)
  {
  }

  lemma PollKeepsInv(lanes: seq<Lane>, topic: Topic, handled: set<nat>, loop: Loop, i: nat)
    requires Inv(lanes, topic, handled, loop) && CanPoll(lanes, topic, 1, loop, i)
    ensures Inv(lanes, topic, handled, Poll(lanes, loop, i))
  {
    assert loop.inflight == {};
    var after := Poll(lanes, loop, i);
    forall j | 0 <= j < |lanes| && lanes[j].topic == topic && j < At(after.position, lanes[j].partition)
      ensures j in handled || j in after.inflight
    {
      if lanes[j].partition == lanes[i].partition && j < i {
        assert lanes[j] == lanes[i];
      }
    }
  }

  lemma ReturnKeepsInv(lanes: seq<Lane>, topic: Topic, handled: set<nat>, loop: Loop, i: nat)
    requires Inv(lanes, topic, handled, loop) && i in loop.inflight && i in handled
    ensures Inv(lanes, topic, handled, Return(loop, i))
  {
  }

  lemma CommitKeepsInv(lanes: seq<Lane>, topic: Topic, handled: set<nat>, loop: Loop, i: nat)
    requires Inv(lanes, topic, handled, loop) && i in loop.done
    ensures Inv(lanes, topic, handled, Commit(lanes, loop, i))
  {
  }

  lemma RestartKeepsInv(lanes: seq<Lane>, topic: Topic, handled: set<nat>, loop: Loop)
    requires Inv(lanes, topic, handled, loop)
    ensures Inv(lanes, topic, handled, Restart(loop))
  {
  }

  // ---- Runs ----

  datatype World = World(lanes: seq<Lane>, handled: set<nat>, loop: Loop)

  datatype Action =
    | Append(lane: Lane)      // a producer
    | HandleElsewhere(i: nat) // another process handles a copy of the record
    | PollNext(i: nat)
    | HandlerReturns(i: nat)
    | CommitRecord(i: nat)
    | Crash

  predicate Enabled(topic: Topic, slots: nat, w: World, a: Action) {
    match a
    case Append(_) => true
    case HandleElsewhere(i) => true
    case PollNext(i) => CanPoll(w.lanes, topic, slots, w.loop, i)
    case HandlerReturns(i) => i in w.loop.inflight
    case CommitRecord(i) => i in w.loop.done && i < |w.lanes|
    case Crash => true
  }

  function Next(topic: Topic, slots: nat, w: World, a: Action): World
    requires Enabled(topic, slots, w, a)
  {
    match a
    case Append(lane) => w.(lanes := w.lanes + [lane])
    case HandleElsewhere(i) => w.(handled := w.handled + {i})
    case PollNext(i) => w.(loop := Poll(w.lanes, w.loop, i))
    case HandlerReturns(i) => w.(handled := w.handled + {i}, loop := Return(w.loop, i))
    case CommitRecord(i) => w.(loop := Commit(w.lanes, w.loop, i))
    case Crash => w.(loop := Restart(w.loop))
  }

  const START := World([], {}, FRESH_LOOP)

  function Run(topic: Topic, slots: nat, acts: seq<Action>): Option<World> {
    if acts == [] then Some(START)
    else
      var w := Run(topic, slots, acts[..|acts| - 1]);
      var a := acts[|acts| - 1];
      if w.None? || !Enabled(topic, slots, w.value, a) then None else Some(Next(topic, slots, w.value, a))
  }

  lemma {:induction false} OneSlotIsSafe(topic: Topic, acts: seq<Action>)
    ensures var w := Run(topic, 1, acts);
            w.Some? ==> Inv(w.value.lanes, topic, w.value.handled, w.value.loop)
  {
    if acts != [] {
      OneSlotIsSafe(topic, acts[..|acts| - 1]);
      var before, a := Run(topic, 1, acts[..|acts| - 1]), acts[|acts| - 1];
      if before.Some? && Enabled(topic, 1, before.value, a) {
        StepKeepsInv(topic, before.value, a);
      }
    }
  }

  lemma StepKeepsInv(topic: Topic, w: World, a: Action)
    requires Inv(w.lanes, topic, w.handled, w.loop) && Enabled(topic, 1, w, a)
    ensures var v := Next(topic, 1, w, a); Inv(v.lanes, topic, v.handled, v.loop)
  {
    match a
    case Append(lane) => GrowKeepsInv(w.lanes, w.lanes + [lane], topic, w.handled, w.handled, w.loop);
    case HandleElsewhere(i) => GrowKeepsInv(w.lanes, w.lanes, topic, w.handled, w.handled + {i}, w.loop);
    case PollNext(i) => PollKeepsInv(w.lanes, topic, w.handled, w.loop, i);
    case HandlerReturns(i) =>
      GrowKeepsInv(w.lanes, w.lanes, topic, w.handled, w.handled + {i}, w.loop);
      ReturnKeepsInv(w.lanes, topic, w.handled + {i}, w.loop, i);
    case CommitRecord(i) => CommitKeepsInv(w.lanes, topic, w.handled, w.loop, i);
    case Crash => RestartKeepsInv(w.lanes, topic, w.handled, w.loop);
  }

  ghost predicate AlwaysSafe(topic: Topic, slots: nat) {
    forall acts: seq<Action> ::
      var w := Run(topic, slots, acts); w.Some? ==> Safe(w.value.lanes, topic, w.value.handled, w.value.loop)
  }

  /** Commits follow completion order, so with two slots the second record can be committed before the first. */
  lemma TwoSlotsAreUnsafe(topic: Topic, slots: nat) returns (acts: seq<Action>)
    requires slots >= 2
    ensures Run(topic, slots, acts).Some?
    ensures var w := Run(topic, slots, acts).value;
            !Safe(w.lanes, topic, w.handled, w.loop) && w.loop.inflight == {} && 0 !in w.handled
  {
    var lane, w := Lane(topic, 0), START;
    acts, w := TwoInFlight(topic, slots);
    acts, w := Extend(topic, slots, acts, w, HandlerReturns(1));
    acts, w := Extend(topic, slots, acts, w, CommitRecord(1));
    acts, w := Extend(topic, slots, acts, w, Crash);
    assert w.lanes[0] == lane && At(w.loop.committed, 0) == 2;
  }

  lemma TwoAppended(topic: Topic, slots: nat) returns (acts: seq<Action>, w: World)
    ensures Run(topic, slots, acts) == Some(w)
    ensures w == World([Lane(topic, 0), Lane(topic, 0)], {}, FRESH_LOOP)
  {
    var lane := Lane(topic, 0);
    acts, w := Extend(topic, slots, [], START, Append(lane));
    acts, w := Extend(topic, slots, acts, w, Append(lane));
    assert w.lanes == [lane, lane];
  }

  /** The loop that has polled both records of one partition. */
  lemma BothPolled(lanes: seq<Lane>, topic: Topic, slots: nat)
    requires slots >= 2 && lanes == [Lane(topic, 0), Lane(topic, 0)]
    ensures CanPoll(lanes, topic, slots, FRESH_LOOP, 0)
    ensures CanPoll(lanes, topic, slots, Poll(lanes, FRESH_LOOP, 0), 1)
    ensures var loop := Poll(lanes, Poll(lanes, FRESH_LOOP, 0), 1);
            loop.committed == map[] && loop.inflight == {0, 1} && loop.done == {}
  {
    var loop := Poll(lanes, FRESH_LOOP, 0);
    assert loop.inflight == {0} && At(loop.position, 0) == 1;
  }

  lemma TwoInFlight(topic: Topic, slots: nat) returns (acts: seq<Action>, w: World)
    requires slots >= 2
    ensures Run(topic, slots, acts) == Some(w)
    ensures w.lanes == [Lane(topic, 0), Lane(topic, 0)] && w.handled == {}
    ensures w.loop.committed == map[] && w.loop.inflight == {0, 1} && w.loop.done == {}
  {
    acts, w := TwoAppended(topic, slots);
    BothPolled(w.lanes, topic, slots);
    acts, w := Extend(topic, slots, acts, w, PollNext(0));
    acts, w := Extend(topic, slots, acts, w, PollNext(1));
  }

  lemma Extend(topic: Topic, slots: nat, acts: seq<Action>, w: World, a: Action) returns (more: seq<Action>, v: World)
    requires Run(topic, slots, acts) == Some(w) && Enabled(topic, slots, w, a)
    ensures more == acts + [a] && v == Next(topic, slots, w, a)
    ensures Run(topic, slots, more) == Some(v)
  {
    more, v := acts + [a], Next(topic, slots, w, a);
    assert more[..|more| - 1] == acts;
  }

  /** Committed offsets only cover handled records, in every run, if and only if there is a single slot. */
  lemma SafeIffOneSlot(topic: Topic, slots: nat)
    requires slots >= 1
    ensures AlwaysSafe(topic, slots) <==> slots == 1
  {
    if slots == 1 {
      forall acts: seq<Action>
        ensures var w := Run(topic, slots, acts);
                w.Some? ==> Safe(w.value.lanes, topic, w.value.handled, w.value.loop)
      {
        OneSlotIsSafe(topic, acts);
      }
    } else {
      var acts := TwoSlotsAreUnsafe(topic, slots);
    }
  }
}
