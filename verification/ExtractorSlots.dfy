/** The extractor's main loop and converter pool: in-flight tasks, pause and resume, who holds which converter, and the
    offsets it commits. */
module ExtractorSlots {
  import opened Basics
  import opened Domain
  import opened Consumption

  type Task = nat  // the record that it handles
  type Converter = nat

  // A task waits for a converter, holds one, has given it back, or is done: with a result or with an exception.
  datatype Phase = Started | Holding(converter: Converter) | Released | Finished | Failed

  datatype Slots = Slots(converters: seq<Converter>, free: seq<Converter>, inflight: map<Task, Phase>, paused: bool)

  ghost function Holders(s: Slots): set<Task> {
    set t | t in s.inflight && s.inflight[t].Holding?
  }

  ghost function Held(s: Slots): set<Converter> {
    set t | t in Holders(s) :: s.inflight[t].converter
  }

  /** No converter is both free and held, or held by two tasks; each is one or the other. */
  ghost predicate PoolIntact(s: Slots) {
    && Distinct(s.converters) && Distinct(s.free)
    && Elements(s.free) <= Elements(s.converters) && Held(s) <= Elements(s.converters)
    && Elements(s.free) !! Held(s)
    && (forall t, u :: t in Holders(s) && u in Holders(s) && t != u
                       ==> s.inflight[t].converter != s.inflight[u].converter)
    && |s.free| + |Holders(s)| == |s.converters|
  }

  /** At most one task per slot, and the consumer is paused exactly when all slots are taken. */
  ghost predicate Bounded(s: Slots) {
    && |s.inflight| <= |s.converters|
    && (s.paused <==> |s.inflight| == |s.converters|)
  }

  ghost predicate Valid(s: Slots) {
    PoolIntact(s) && Bounded(s)
  }

  lemma {:induction false} ImageSize(tasks: set<Task>, phases: map<Task, Phase>, image: set<Converter>)
    requires forall t :: t in tasks ==> t in phases && phases[t].Holding?
    requires forall t, u :: t in tasks && u in tasks && t != u ==> phases[t].converter != phases[u].converter
    requires image == set t | t in tasks :: phases[t].converter
    ensures |image| == |tasks|
  {
    if tasks != {} {
      var t :| t in tasks;
      var rest := set u | u in tasks - {t} :: phases[u].converter;
      ImageSize(tasks - {t}, phases, rest);
      assert image == rest + {phases[t].converter};
    }
  }

  lemma SubsetOfEqualSize<T>(a: set<T>, b: set<T>)
    requires a <= b && |a| == |b|
    ensures a == b
  {
    if x :| x in b && x !in a {
      assert a <= b - {x};
      SubsetSize(a, b - {x});
    }
  }

  /** Free and held converters together are always the initial ones. */
  lemma PoolIsConserved(s: Slots)
    requires PoolIntact(s)
    ensures Elements(s.free) + Held(s) == Elements(s.converters)
  {
    DistinctSize(s.free);
    DistinctSize(s.converters);
    ImageSize(Holders(s), s.inflight, Held(s));
    SubsetOfEqualSize(Elements(s.free) + Held(s), Elements(s.converters));
  }

  /** A task that asks for a converter finds one: it never waits. */
  lemma StartedNeverWaits(s: Slots, t: Task)
    requires Valid(s) && t in s.inflight && s.inflight[t].Started?
    ensures s.free != []
  {
    var others := Holders(s) + {t};
    assert |others| == |Holders(s)| + 1;
    assert others <= s.inflight.Keys;
    SubsetSize(others, s.inflight.Keys);
  }

  lemma WithoutHolder(before: Slots, after: Slots, t: Task)
    requires PoolIntact(before) && t in Holders(before) && Holders(after) == Holders(before) - {t}
    requires forall u :: u in Holders(after) ==> after.inflight[u] == before.inflight[u]
    ensures Held(after) == Held(before) - {before.inflight[t].converter}
  {
    var c := before.inflight[t].converter;
    forall d | d in Held(before) - {c} ensures d in Held(after) {
      var u :| u in Holders(before) && before.inflight[u].converter == d;
      assert u in Holders(after) && after.inflight[u].converter == d;
    }
    forall d | d in Held(after) ensures d in Held(before) - {c} {
      var u :| u in Holders(after) && after.inflight[u].converter == d;
      assert u in Holders(before) && before.inflight[u].converter == d;
    }
  }

  function Unfinished(inflight: map<Task, Phase>): map<Task, Phase> {
    map t | t in inflight && !inflight[t].Finished? :: inflight[t]
  }

  function Done(inflight: map<Task, Phase>): set<Task> {
    set t | t in inflight && inflight[t].Finished?
  }

  function Fallen(inflight: map<Task, Phase>): set<Task> {
    set t | t in inflight && inflight[t].Failed?
  }

  /** Dropping the finished tasks leaves the pool alone. */
  lemma SweepKeepsPool(before: Slots, after: Slots)
    requires Valid(before) && after.converters == before.converters && after.free == before.free
    requires after.inflight == Unfinished(before.inflight)
    requires after.paused == (before.paused && |after.inflight| == |before.converters|)
    ensures Valid(after)
  {
    assert Holders(after) == Holders(before);
    assert Held(after) == Held(before);
    SubsetSize(after.inflight.Keys, before.inflight.Keys);
  }

  // ---- The tasks and what Kafka keeps of the consumer ----

  /** Kafka's view of the consumer and the map of tasks agree. */
  ghost predicate Agree(lanes: seq<Lane>, inflight: map<Task, Phase>, loop: Loop) {
    && loop.inflight == inflight.Keys && loop.done == Done(inflight)
    && (forall t :: t in inflight ==> t < |lanes| && t < At(loop.position, lanes[t].partition))
  }

  ghost predicate SafeIfOne(slots: nat, lanes: seq<Lane>, handled: set<nat>, loop: Loop) {
    slots == 1 ==> Consumption.Inv(lanes, FetchedTopic, handled, loop)
  }

  lemma NewPhaseAgrees(lanes: seq<Lane>, inflight: map<Task, Phase>, loop: Loop, task: Task, phase: Phase)
    requires Agree(lanes, inflight, loop) && task in inflight && !inflight[task].Finished?
    ensures Agree(lanes, inflight[task := phase], if phase.Finished? then Return(loop, task) else loop)
  {
    assert inflight[task := phase].Keys == inflight.Keys;
    assert Done(inflight[task := phase]) == Done(inflight) + if phase.Finished? then {task} else {};
  }

  lemma PollAgrees(lanes: seq<Lane>, inflight: map<Task, Phase>, loop: Loop, task: Task)
    requires Agree(lanes, inflight, loop) && IsNext(lanes, FetchedTopic, loop, task)
    ensures task !in inflight && Agree(lanes, inflight[task := Started], Poll(lanes, loop, task))
  {
    assert inflight[task := Started].Keys == inflight.Keys + {task};
    assert Done(inflight[task := Started]) == Done(inflight) - {task};
  }

  lemma CommitAgrees(lanes: seq<Lane>, inflight: map<Task, Phase>, loop: Loop, task: Task)
    requires Agree(lanes, inflight, loop) && task in inflight
    ensures task < |lanes| && Agree(lanes, inflight - {task}, Commit(lanes, loop, task))
  {
    assert (inflight - {task}).Keys == inflight.Keys - {task};
    assert Done(inflight - {task}) == Done(inflight) - {task};
  }

  lemma CommitStaysSafe(slots: nat, lanes: seq<Lane>, handled: set<nat>, loop: Loop, task: Task)
    requires SafeIfOne(slots, lanes, handled, loop) && task in loop.done && task < |lanes|
    ensures SafeIfOne(slots, lanes, handled, Commit(lanes, loop, task))
  {
    if slots == 1 {
      CommitKeepsInv(lanes, FetchedTopic, handled, loop, task);
    }
  }

  lemma PollStaysSafe(slots: nat, lanes: seq<Lane>, handled: set<nat>, loop: Loop, task: Task)
    requires SafeIfOne(slots, lanes, handled, loop) && CanPoll(lanes, FetchedTopic, slots, loop, task)
    ensures SafeIfOne(slots, lanes, handled, Poll(lanes, loop, task))
  {
    if slots == 1 {
      PollKeepsInv(lanes, FetchedTopic, handled, loop, task);
    }
  }

  lemma ReturnStaysSafe(slots: nat, lanes: seq<Lane>, handled: set<nat>, loop: Loop, task: Task)
    requires SafeIfOne(slots, lanes, handled, loop) && task in loop.inflight
    ensures SafeIfOne(slots, lanes, handled + {task}, Return(loop, task))
  {
    if slots == 1 {
      GrowKeepsInv(lanes, lanes, FetchedTopic, handled, handled + {task}, loop);
      ReturnKeepsInv(lanes, FetchedTopic, handled + {task}, loop, task);
    }
  }

  // ---- The pool ----

  lemma TakeKeepsPool(before: Slots, after: Slots, task: Task)
    requires Valid(before) && task in before.inflight && before.inflight[task].Started? && before.free != []
    requires after == before.(free := before.free[1..], inflight := before.inflight[task := Holding(before.free[0])])
    ensures Valid(after)
  {
    var converter := before.free[0];
    assert converter !in after.free;
    assert Elements(before.free) == Elements(after.free) + {converter};
    assert Holders(after) == Holders(before) + {task};
    assert Held(after) == Held(before) + {converter};
    assert after.inflight.Keys == before.inflight.Keys;
  }

  lemma ReleaseKeepsPool(before: Slots, after: Slots, task: Task)
    requires Valid(before) && task in before.inflight && before.inflight[task].Holding?
    requires after == before.(free := before.free + [before.inflight[task].converter],
                              inflight := before.inflight[task := Released])
    ensures Valid(after)
  {
    var converter := before.inflight[task].converter;
    assert converter in Held(before);
    assert converter !in Elements(before.free);
    assert Elements(after.free) == Elements(before.free) + {converter};
    assert Holders(after) == Holders(before) - {task};
    WithoutHolder(before, after, task);
    assert after.inflight.Keys == before.inflight.Keys;
  }

  lemma EndKeepsPool(before: Slots, after: Slots, task: Task)
    requires Valid(before) && task in before.inflight && !before.inflight[task].Holding?
    requires after.inflight == before.inflight[task := Finished] || after.inflight == before.inflight[task := Failed]
    requires after == before.(inflight := after.inflight)
    ensures Valid(after)
  {
    assert Holders(after) == Holders(before);
    assert Held(after) == Held(before);
    assert after.inflight.Keys == before.inflight.Keys;
  }

  /** A new task takes a slot and no converter. */
  lemma DeliverKeepsPool(before: Slots, after: Slots, task: Task)
    requires Valid(before) && !before.paused && task !in before.inflight
    requires after.converters == before.converters && after.free == before.free
    requires after.inflight == before.inflight[task := Started]
    requires after.paused == (|after.inflight| >= |after.converters|)
    ensures Valid(after)
  {
    assert Holders(after) == Holders(before);
    assert Held(after) == Held(before);
    assert after.inflight.Keys == before.inflight.Keys + {task};
  }

  class ExtractorLoop {
    const converters: seq<Converter>
    const lanes: seq<Lane>          // the log as the broker shows it in the lifetime of the process
    var free: seq<Converter>
    var inflight: map<Task, Phase>
    var paused: bool
    var loop: Loop                  // what Kafka keeps of the consumer
    ghost var handled: set<nat>     // the records whose handler has returned, in this process or another

    ghost function State(): Slots
      reads this
    {
      Slots(converters, free, inflight, paused)
    }

    ghost predicate Joined()
      reads this
    {
      Agree(lanes, inflight, loop)
    }

    /** With one converter, and so one slot, the offsets are safe. */
    ghost predicate OffsetsOk()
      reads this
    {
      SafeIfOne(|converters|, lanes, handled, loop)
    }

    constructor (converters: seq<Converter>, lanes: seq<Lane>, committed: map<nat, nat>)
      requires converters != [] && Distinct(converters)
      ensures State() == Slots(converters, converters, map[], false) && Valid(State()) && Joined()
      ensures this.lanes == lanes && loop == Loop(committed, committed, {}, {}) && handled == {}
    {
      this.converters, this.lanes := converters, lanes;
      free := converters;
      inflight := map[];
      paused := false;
      loop := Loop(committed, committed, {}, {});
      handled := {};
    }

    /** `warm`: every converter is taken out, warmed and put back in order before the first record is polled. */
    method Warm() returns (warmed: seq<Converter>)
      modifies this`free
      ensures free == old(free) && warmed == old(free)
    {
      warmed := [];
      while free != []
        invariant warmed + free == old(free)
        decreases |free|
      {
        warmed, free := warmed + [free[0]], free[1..];
      }
      for i := 0 to |warmed|
        invariant free == warmed[..i]
      {
        free := free + [warmed[i]];
      }
    }

    /** `inflight.pop(task)` and the commit of its record. */
    method PopAndCommit(task: Task)
      requires Joined() && OffsetsOk() && task in inflight && inflight[task].Finished?
      modifies this`inflight, this`loop
      ensures Joined() && OffsetsOk() && inflight == old(inflight) - {task}
      ensures At(loop.committed, lanes[task].partition) == task + 1
    {
      CommitAgrees(lanes, inflight, loop, task);
      CommitStaysSafe(|converters|, lanes, handled, loop, task);
      inflight := inflight - {task};
      loop := Commit(lanes, loop, task);
    }

    /** Tasks that are done leave, and the records of those with a result are committed; false is the exception of one
        without, which ends the process. */
    method PopCompleted() returns (committed: seq<Task>, ok: bool)
      requires Joined() && OffsetsOk()
      modifies this`inflight, this`loop
      ensures OffsetsOk() && ok == (Fallen(old(inflight)) == {})
      ensures forall t :: t in committed ==> t in Done(old(inflight))
      ensures ok ==> Joined() && inflight == Unfinished(old(inflight))
      ensures ok ==> forall t :: t in committed <==> t in Done(old(inflight))
    {
      committed := [];
      var completed := Done(inflight) + Fallen(inflight);
      ghost var was := inflight;
      while completed != {}
        invariant Joined() && OffsetsOk()
        invariant forall t :: t in completed <==> t in inflight && (inflight[t].Finished? || inflight[t].Failed?)
        invariant forall t :: t in was && t !in inflight <==> t in committed
        invariant forall t :: t in inflight ==> t in was && inflight[t] == was[t]
        invariant forall t :: t in committed ==> t in was && was[t].Finished?
        decreases |completed|
      {
        var task :| task in completed;
        if inflight[task].Failed? {
          assert task in Fallen(was);
          inflight := inflight - {task};
          return committed, false;
        }
        PopAndCommit(task);
        committed := committed + [task];
        completed := completed - {task};
      }
      ok := true;
      assert inflight == Unfinished(was);
    }

    /** The head of an iteration: after the commits a paused consumer resumes once there is a free slot. */
    method Sweep() returns (committed: seq<Task>, ok: bool)
      requires Valid(State()) && Joined() && OffsetsOk()
      modifies this`inflight, this`paused, this`loop
      ensures OffsetsOk() && (ok ==> Valid(State()) && Joined())
      ensures ok <==> forall t :: t in old(inflight) ==> !old(inflight)[t].Failed?
      ensures forall t :: t in committed ==> t in old(inflight) && old(inflight)[t].Finished?
      ensures ok ==> forall t :: t in old(inflight) && old(inflight)[t].Finished? ==> t in committed
      ensures ok ==> forall t :: t in inflight <==> t in old(inflight) && !old(inflight)[t].Finished?
      ensures ok ==> forall t :: t in inflight ==> inflight[t] == old(inflight)[t]
    {
      ghost var was := State();
      committed, ok := PopCompleted();
      assert Fallen(was.inflight) == {} <==> forall t :: t in was.inflight ==> !was.inflight[t].Failed? by {
        assert forall t :: t in Fallen(was.inflight) <==> t in was.inflight && was.inflight[t].Failed?;
      }
      if ok {
        SubsetSize(inflight.Keys, was.inflight.Keys);
        if paused && |inflight| < |converters| {
          paused := false;
        }
        SweepKeepsPool(was, State());
      }
    }

    lemma FreeSlot()
      requires Bounded(State()) && Joined() && !paused
      ensures |loop.inflight| < |converters|
    {
    }

    /** `poll` returns the record, and its task is created. */
    method Track(task: Task)
      requires Joined() && OffsetsOk() && CanPoll(lanes, FetchedTopic, |converters|, loop, task)
      modifies this`inflight, this`loop
      ensures Joined() && OffsetsOk() && task !in old(inflight) && inflight == old(inflight)[task := Started]
      ensures loop == Poll(lanes, old(loop), task)
    {
      PollAgrees(lanes, inflight, loop, task);
      PollStaysSafe(|converters|, lanes, handled, loop, task);
      inflight := inflight[task := Started];
      loop := Poll(lanes, loop, task);
    }

    /** `len(inflight) >= max_concurrency`, after the new task. */
    method PauseIfFull(ghost was: Slots, task: Task)
      requires Valid(was) && !was.paused && task !in was.inflight
      requires State() == was.(inflight := was.inflight[task := Started])
      modifies this`paused
      ensures Valid(State())
    {
      if |inflight| >= |converters| {
        paused := true;
      }
      DeliverKeepsPool(was, State(), task);
    }

    /** The tail of an iteration, for a polled message: a new task, and a pause when the last slot is taken. Only a
        consumer that is not paused delivers one, so there is a free slot. */
    method Deliver(task: Task)
      requires Valid(State()) && Joined() && OffsetsOk() && !paused && IsNext(lanes, FetchedTopic, loop, task)
      modifies this`inflight, this`paused, this`loop
      ensures Valid(State()) && Joined() && OffsetsOk()
      ensures old(CanPoll(lanes, FetchedTopic, |converters|, loop, task)) && loop == Poll(lanes, old(loop), task)
      ensures task !in old(inflight) && inflight == old(inflight)[task := Started]
    {
      FreeSlot();
      ghost var was := State();
      Track(task);
      PauseIfFull(was, task);
    }

    /** `await self._converters.get()`, which returns at once. */
    method Take(task: Task) returns (converter: Converter)
      requires Valid(State()) && Joined() && task in inflight && inflight[task].Started?
      modifies this`free, this`inflight
      ensures Valid(State()) && Joined()
      ensures old(free) != [] && converter == old(free)[0] && free == old(free)[1..]
      ensures inflight == old(inflight)[task := Holding(converter)]
    {
      StartedNeverWaits(State(), task);
      ghost var before := State();
      NewPhaseAgrees(lanes, inflight, loop, task, Holding(free[0]));
      converter := free[0];
      free := free[1..];
      inflight := inflight[task := Holding(converter)];
      TakeKeepsPool(before, State(), task);
    }

    /** `self._converters.put_nowait(converter)`, in the finally clause. */
    method Release(task: Task)
      requires Valid(State()) && Joined() && task in inflight && inflight[task].Holding?
      modifies this`free, this`inflight
      ensures Valid(State()) && Joined()
      ensures free == old(free) + [old(inflight)[task].converter] && inflight == old(inflight)[task := Released]
    {
      ghost var before := State();
      NewPhaseAgrees(lanes, inflight, loop, task, Released);
      free := free + [inflight[task].converter];
      inflight := inflight[task := Released];
      ReleaseKeepsPool(before, State(), task);
    }

    /** The handler ends; a record that is rejected before the conversion never takes a converter. */
    method Finish(task: Task, ok: bool)
      requires Valid(State()) && Joined() && OffsetsOk()
      requires task in inflight && (inflight[task].Started? || inflight[task].Released?)
      modifies this`inflight, this`loop, this`handled
      ensures Valid(State()) && Joined() && OffsetsOk()
      ensures inflight == old(inflight)[task := if ok then Finished else Failed]
      ensures handled == old(handled) + if ok then {task} else {}
      ensures loop.committed == old(loop.committed)
    {
      ghost var before := State();
      NewPhaseAgrees(lanes, inflight, loop, task, if ok then Finished else Failed);
      if ok {
        ReturnStaysSafe(|converters|, lanes, handled, loop, task);
        handled := handled + {task};
        loop := Return(loop, task);
      }
      inflight := inflight[task := if ok then Finished else Failed];
      EndKeepsPool(before, State(), task);
    }

    /** One step of some task, as the event loop and the worker threads happen to schedule them. */
    method Schedule()
      requires Valid(State()) && Joined() && OffsetsOk()
      modifies this`free, this`inflight, this`loop, this`handled
      ensures Valid(State()) && Joined() && OffsetsOk() && inflight.Keys == old(inflight.Keys)
      ensures loop.committed == old(loop.committed) && old(handled) <= handled
    {
      var task: Task :| true;
      var ok: bool :| true;
      if task in inflight {
        match inflight[task] {
          case Started =>
            var rejected: bool :| true;
            if rejected {
              Finish(task, ok);
            } else {
              var converter := Take(task);
            }
          case Holding(_) => Release(task);
          case Released => Finish(task, ok);
          case Finished =>
          case Failed =>
        }
      }
    }

    /** Any number of steps of the tasks. */
    method RunTasks(quanta: nat)
      requires Valid(State()) && Joined() && OffsetsOk()
      modifies this`free, this`inflight, this`loop, this`handled
      ensures Valid(State()) && Joined() && OffsetsOk()
    {
      for k := 0 to quanta
        invariant Valid(State()) && Joined() && OffsetsOk()
      {
        Schedule();
      }
    }

    /** One iteration: the sweep, whatever the tasks do meanwhile, and a poll, before which the loop is in state
        `polled`. */
    method Turn(quanta: nat) returns (ok: bool, ghost polled: Slots)
      requires Valid(State()) && Joined() && OffsetsOk()
      modifies this
      ensures OffsetsOk() && (ok ==> Valid(State()) && Joined() && Valid(polled))
    {
      var committed;
      committed, ok := Sweep();
      polled := State();
      if ok {
        RunTasks(quanta);
        polled := State();
        var next: Task :| true;
        if !paused && IsNext(lanes, FetchedTopic, loop, next) {
          Deliver(next);
        }
      }
    }

    /** `_run` after warming, for any number of polls and any scheduling of the tasks between them. At every poll at
        most one task per slot is in flight, the consumer is paused exactly when all slots are taken, and the pool is
        intact. With one converter every record below a committed offset is handled however the loop ends, also after
        a restart. */
    method Run(polls: nat, quanta: nat) returns (ghost polled: seq<Slots>)
      requires Valid(State()) && Joined() && OffsetsOk() && inflight == map[]
      modifies this
      ensures OffsetsOk()
      ensures forall k :: 0 <= k < |polled| ==> Valid(polled[k])
      ensures |converters| == 1 ==> Safe(lanes, FetchedTopic, handled, loop)
      ensures |converters| == 1 ==> Consumption.Inv(lanes, FetchedTopic, handled, Restart(loop))
    {
      polled := [];
      var n, ok := 0, true;
      while ok && n < polls
        invariant OffsetsOk() && (ok ==> Valid(State()) && Joined()) && n <= polls
        invariant forall k :: 0 <= k < |polled| ==> Valid(polled[k])
      {
        ghost var before;
        ok, before := Turn(quanta);
        if ok {
          polled := polled + [before];
          n := n + 1;
        }
      }
      if |converters| == 1 {
        RestartKeepsInv(lanes, FetchedTopic, handled, loop);
      }
    }
  }
}
