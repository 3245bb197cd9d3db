/** Exactly when the offsets that the extractor commits are safe in every run of the pipeline. */
module OffsetsExact {
  import opened Domain
  import opened Ledger
  import opened Provenance
  import opened SourceKeys
  import opened Pipeline
  import opened PipelineSteps
  import opened Guarantees
  import opened Reachability
  import opened Ingestion
  import opened Samples
  import Artifacts = ArtifactContents
  import Consumption
  import Streams

  /** Every record of document.fetched below the committed offset of its partition is processed. */
  ghost predicate OffsetsSafe(s: State) {
    forall i: nat :: i < |s.log| && s.log[i].lane.topic == FetchedTopic
                     && i < Consumption.At(s.extractor.committed, s.log[i].lane.partition)
                     ==> Readable(s, i) && ExtractKey(EventAt(s, i)) in s.db.processed
  }

  ghost predicate AlwaysSafe(c: Config) {
    forall run: seq<State>, steps: seq<Step>, n: nat :: IsRun(c, run, steps) && n <= |steps| ==> OffsetsSafe(run[n])
  }

  lemma OneSlotIsSafe(c: Config, run: seq<State>, steps: seq<Step>, n: nat)
    requires IsRun(c, run, steps) && n <= |steps| && c.slots == 1
    ensures OffsetsSafe(run[n])
  {
    forall i: nat | i < |run[n].log| && run[n].log[i].lane.topic == FetchedTopic
                    && i < Consumption.At(run[n].extractor.committed, run[n].log[i].lane.partition)
      ensures Readable(run[n], i) && ExtractKey(EventAt(run[n], i)) in run[n].db.processed
    {
      ExtractorOffsetsAreSafe(c, run, steps, n, i);
    }
  }

  lemma FetchedHasPassed(c: Config, run: seq<State>, steps: seq<Step>, n: nat, i: nat)
    requires IsRun(c, run, steps) && n <= |steps| && i < |run[n].log| && run[n].log[i].lane.topic == FetchedTopic
    ensures exists content :: Passes(c, content)
  {
    ReachableInv(c, run, steps, n);
    TopicTellsType(run[n], i);
    Artifacts.ReadsItsVersion(c, run[n], i);
  }

  // ---- Two documents in flight ----

  lemma OldRecordStays(c: Config, s: State, call: Call, newId: Id, t: State, i: nat)
    requires IsIngested(c, s, call, newId, t) && Readable(s, i)
    ensures Readable(t, i) && EventAt(t, i) == EventAt(s, i) && t.log[i] == s.log[i]
  {
    var send := s.log[i].send;
    assert t.log[i] == s.log[i] && t.wire[send] == s.wire[send];
    var r := s.wire[send].item.row;
    assert Events(t.db.outbox)[r] == Events(s.db.outbox)[r];
  }

  /** Records 1 and 3 are two fetched documents in one partition, and nothing is extracted yet. */
  ghost predicate IsTwoFetched(c: Config, content: Bytes, s: State) {
    && |s.log| == 4 && Readable(s, 1) && Readable(s, 3)
    && s.log[0].lane == s.log[2].lane == Consumption.Lane(SubmittedTopic, 0)
    && s.log[1].lane == s.log[3].lane == Consumption.Lane(FetchedTopic, 0)
    && EventAt(s, 1) == FetchedEvent(c, SampleCall('1', content), Uuid('2'))
    && EventAt(s, 3) == FetchedEvent(c, SampleCall('4', content), Uuid('5'))
    && ExtractKey(EventAt(s, 1)) !in s.db.processed && ExtractIsNew(s, 3, Uuid('6'))
    && ReadSource(c, s.sources, EventAt(s, 3).payloadUri) == Some(content)
    && s.extractor == Consumption.FRESH_LOOP && s.runs == map[]
  }

  lemma SecondIsNew(c: Config, content: Bytes, s: State)
    requires IsIngested(c, TwoTenants(), SampleCall('1', content), Uuid('2'), s)
    ensures IsNewTenant(s, Uuid('4')) && |s.db.outbox| == 2
  {
    var events := Events(s.db.outbox);
    assert |events| == 2 && s.db.outbox[0].event == events[0] && s.db.outbox[1].event == events[1];
    assert Uuid('1')[0] == '1' && Uuid('4')[0] == '4';
    assert forall d :: d in s.db.documents ==> d in s.db.documents.Keys;
    assert forall v :: v in s.db.versions ==> v in s.db.versions.Keys;
  }

  lemma KeysAreNew(c: Config, content: Bytes, s: State, t: State)
    requires IsIngested(c, TwoTenants(), SampleCall('1', content), Uuid('2'), s)
    requires IsIngested(c, s, SampleCall('4', content), Uuid('5'), t)
    ensures ExtractKey(FetchedEvent(c, SampleCall('1', content), Uuid('2'))) !in t.db.processed
    ensures ExtractKey(FetchedEvent(c, SampleCall('4', content), Uuid('5'))) !in t.db.processed
  {
    assert forall k :: k in t.db.processed ==> k.2.DocumentFetcher?;
  }

  lemma EventsOfBoth(c: Config, content: Bytes, s: State, t: State)
    requires IsIngested(c, TwoTenants(), SampleCall('1', content), Uuid('2'), s)
    requires IsIngested(c, s, SampleCall('4', content), Uuid('5'), t)
    ensures var first, second := SampleCall('1', content), SampleCall('4', content);
            Events(t.db.outbox) == [RootEvent(c, first), FetchedEvent(c, first, Uuid('2')),
                                    RootEvent(c, second), FetchedEvent(c, second, Uuid('5'))]
  {
    assert Events(TwoTenants().db.outbox) == [];
  }

  lemma IdIsNew(c: Config, content: Bytes, t: State)
    requires var first, second := SampleCall('1', content), SampleCall('4', content);
             Events(t.db.outbox) == [RootEvent(c, first), FetchedEvent(c, first, Uuid('2')),
                                     RootEvent(c, second), FetchedEvent(c, second, Uuid('5'))]
    ensures !EventStored(t.db.outbox, Uuid('4'), Uuid('6'))
  {
    var events := Events(t.db.outbox);
    assert Uuid('1')[0] == '1' && Uuid('4')[0] == '4' && Uuid('5')[0] == '5' && Uuid('6')[0] == '6';
    forall r | 0 <= r < |t.db.outbox| && t.db.outbox[r].event.tenantId == Uuid('4')
      ensures t.db.outbox[r].event.eventId != Uuid('6')
    {
      assert t.db.outbox[r].event == events[r];
    }
  }

  lemma FirstFetched(c: Config, may: Converter, content: Bytes) returns (s: State)
    requires IsBucket(c.bucket) && c.slots >= 1 && Passes(c, content)
    ensures Reaches(c, may, TwoTenants(), s)
    ensures IsIngested(c, TwoTenants(), SampleCall('1', content), Uuid('2'), s)
  {
    SampleStarts(c, may, {Uuid('1'), Uuid('4')});
    assert Uuid('1')[0] == '1' && Uuid('2')[0] == '2' && Uuid('4')[0] == '4';
    s := SampleGoesOn(c, may, TwoTenants(), TwoTenants(), '1', content, Uuid('2'));
  }

  lemma SecondFetched(c: Config, may: Converter, content: Bytes, s: State) returns (t: State)
    requires Passes(c, content) && Reaches(c, may, TwoTenants(), s)
    requires IsIngested(c, TwoTenants(), SampleCall('1', content), Uuid('2'), s)
    ensures Reaches(c, may, TwoTenants(), t) && IsIngested(c, s, SampleCall('4', content), Uuid('5'), t)
  {
    SecondIsNew(c, content, s);
    assert Uuid('4')[0] == '4' && Uuid('5')[0] == '5';
    t := SampleGoesOn(c, may, TwoTenants(), s, '4', content, Uuid('5'));
  }

  lemma BothFetched(c: Config, content: Bytes, s: State, t: State)
    requires IsBucket(c.bucket)
    requires IsIngested(c, TwoTenants(), SampleCall('1', content), Uuid('2'), s)
    requires IsIngested(c, s, SampleCall('4', content), Uuid('5'), t)
    ensures IsTwoFetched(c, content, t)
  {
    OldRecordStays(c, s, SampleCall('4', content), Uuid('5'), t, 1);
    ReadsBack(c, t.sources, SampleCall('4', content));
    KeysAreNew(c, content, s, t);
    EventsOfBoth(c, content, s, t);
    IdIsNew(c, content, t);
  }

  lemma TwoFetched(c: Config, may: Converter, content: Bytes) returns (t: State)
    requires IsBucket(c.bucket) && c.slots >= 1 && Passes(c, content)
    ensures Reaches(c, may, TwoTenants(), t) && IsTwoFetched(c, content, t)
  {
    var s := FirstFetched(c, may, content);
    t := SecondFetched(c, may, content, s);
    BothFetched(c, content, s, t);
  }

  ghost predicate TwoLanes(lanes: seq<Consumption.Lane>) {
    && |lanes| == 4
    && lanes[0] == lanes[2] == Consumption.Lane(SubmittedTopic, 0)
    && lanes[1] == lanes[3] == Consumption.Lane(FetchedTopic, 0)
  }

  lemma BothCanBePolled(lanes: seq<Consumption.Lane>, slots: nat)
    requires TwoLanes(lanes) && slots >= 2
    ensures Consumption.CanPoll(lanes, FetchedTopic, slots, Consumption.FRESH_LOOP, 1)
    ensures var loop := Consumption.Poll(lanes, Consumption.FRESH_LOOP, 1);
            Consumption.CanPoll(lanes, FetchedTopic, slots, loop, 3)
            && Consumption.Poll(lanes, loop, 3).inflight == {1, 3}
  {
    var loop := Consumption.Poll(lanes, Consumption.FRESH_LOOP, 1);
    assert loop.inflight == {1} && Consumption.At(loop.position, 0) == 2;
  }

  /** Both are polled into two slots. */
  lemma TwoPolled(c: Config, may: Converter, content: Bytes, s: State) returns (t: State)
    requires c.slots >= 2 && Reaches(c, may, TwoTenants(), s) && IsTwoFetched(c, content, s)
    ensures Reaches(c, may, TwoTenants(), t) && t == s.(now := t.now, extractor := t.extractor)
    ensures t.extractor.inflight == {1, 3}
  {
    var lanes := Lanes(s.log);
    BothCanBePolled(lanes, c.slots);
    var one := s.(now := s.now + 1, extractor := Consumption.Poll(lanes, s.extractor, 1));
    PollReaches(c, may, TwoTenants(), s, 1, one);
    t := one.(now := one.now + 1, extractor := Consumption.Poll(lanes, one.extractor, 3));
    PollReaches(c, may, TwoTenants(), one, 3, t);
  }

  lemma ConversionFails(c: Config, content: Bytes, s: State)
    requires Readable(s, 3) && EventAt(s, 3) == FetchedEvent(c, SampleCall('4', content), Uuid('5'))
    requires ReadSource(c, s.sources, EventAt(s, 3).payloadUri) == Some(content)
    ensures var outcome := ExtractOutcomeFor(c, s.sources, EventAt(s, 3), Streams.NotConverted);
            outcome.Some? && outcome.value.Err?
  {
  }

  /** The later one begins, and the converter cannot read it. */
  lemma LaterBegins(c: Config, may: Converter, content: Bytes, s: State) returns (t: State, error: ExtractError)
    requires Reaches(c, may, TwoTenants(), s) && s.extractor.inflight == {1, 3} && may(content, Streams.NotConverted)
    requires IsTwoFetched(c, content, s.(extractor := Consumption.FRESH_LOOP))
    ensures Reaches(c, may, TwoTenants(), t)
    ensures t == s.(now := t.now, runs := map[0 := ExtractRun(3, Err(error), 0, true)])
  {
    ConversionFails(c, content, s);
    error := ExtractOutcomeFor(c, s.sources, EventAt(s, 3), Streams.NotConverted).value.error;
    t := s.(now := s.now + 1, runs := map[0 := ExtractRun(3, Err(error), 0, true)]);
    assert s.runs[0 := ExtractRun(3, Err(error), 0, true)] == t.runs;
    ExtractionBeginReaches(c, may, TwoTenants(), s, 0, 3, Streams.NotConverted, true, t);
  }

  lemma OtherIsUntouched(c: Config, content: Bytes, before: Db, e: Event, error: ExtractError, now: Time, after: Db)
    requires e == FetchedEvent(c, SampleCall('4', content), Uuid('5'))
    requires ExtractApplies(c, before, e, Err(error), Uuid('6'), now, after)
    requires ExtractKey(FetchedEvent(c, SampleCall('1', content), Uuid('2'))) !in before.processed
    ensures ExtractKey(FetchedEvent(c, SampleCall('1', content), Uuid('2'))) !in after.processed
    ensures |after.outbox| >= |before.outbox| && after.outbox[..|before.outbox|] == before.outbox
  {
    assert after.processed == View(after).processed;
    assert Uuid('2')[0] == '2' && Uuid('5')[0] == '5';
  }

  lemma RecordOneStays(s: State, db: Db)
    requires |s.log| == 4 && Readable(s, 1) && 0 in s.runs && s.runs[0].record == 3 && s.runs[0].owned
    requires 3 in s.extractor.inflight
    requires |db.outbox| >= |s.db.outbox| && db.outbox[..|s.db.outbox|] == s.db.outbox
    ensures var t := AfterFinish(s, 0, db);
            Readable(t, 1) && EventAt(t, 1) == EventAt(s, 1) && 3 in t.extractor.done && t.log == s.log
  {
    var r := s.wire[s.log[1].send].item.row;
    assert db.outbox[r] == s.db.outbox[r];
  }

  /** The rejection of the later one is recorded. */
  lemma LaterIsRejected(c: Config, may: Converter, content: Bytes, s: State, error: ExtractError) returns (t: State)
    requires Reaches(c, may, TwoTenants(), s) && s.extractor.inflight == {1, 3}
    requires s.runs == map[0 := ExtractRun(3, Err(error), 0, true)]
    requires IsTwoFetched(c, content, s.(extractor := Consumption.FRESH_LOOP, runs := map[]))
    ensures Reaches(c, may, TwoTenants(), t)
    ensures |t.log| == 4 && t.log[1].lane == t.log[3].lane == Consumption.Lane(FetchedTopic, 0)
    ensures Readable(t, 1) && ExtractKey(EventAt(t, 1)) !in t.db.processed && 3 in t.extractor.done
  {
    var db := ExtractionReaches(c, may, TwoTenants(), s, 0, Uuid('6'));
    OtherIsUntouched(c, content, s.db, EventAt(s, 3), error, s.now + 1, db);
    RecordOneStays(s, db);
    t := AfterFinish(s, 0, db);
  }

  /** Its commit covers the earlier one. */
  lemma CommitCoversEarlier(c: Config, may: Converter, s: State) returns (t: State)
    requires Reaches(c, may, TwoTenants(), s)
    requires |s.log| == 4 && s.log[1].lane == s.log[3].lane == Consumption.Lane(FetchedTopic, 0)
    requires Readable(s, 1) && ExtractKey(EventAt(s, 1)) !in s.db.processed && 3 in s.extractor.done
    ensures Reaches(c, may, TwoTenants(), t) && !OffsetsSafe(t)
  {
    t := s.(now := s.now + 1, extractor := Consumption.Commit(Lanes(s.log), s.extractor, 3));
    OffsetReaches(c, may, TwoTenants(), s, 3, t);
    assert Consumption.At(t.extractor.committed, 0) == 4 && EventAt(t, 1) == EventAt(s, 1);
  }

  lemma TwoInFlight(c: Config, may: Converter, content: Bytes) returns (t: State)
    requires IsBucket(c.bucket) && c.slots >= 2 && Passes(c, content)
    ensures Reaches(c, may, TwoTenants(), t) && t.extractor.inflight == {1, 3} && t.runs == map[]
    ensures IsTwoFetched(c, content, t.(extractor := Consumption.FRESH_LOOP))
  {
    var s := TwoFetched(c, may, content);
    t := TwoPolled(c, may, content, s);
    assert t.(extractor := Consumption.FRESH_LOOP) == s.(now := t.now);
  }

  lemma UnsafeReaches(c: Config, may: Converter, content: Bytes) returns (t: State)
    requires IsBucket(c.bucket) && c.slots >= 2 && Passes(c, content) && may(content, Streams.NotConverted)
    ensures Reaches(c, may, TwoTenants(), t) && !OffsetsSafe(t)
  {
    var s := TwoInFlight(c, may, content);
    var begun, error := LaterBegins(c, may, content, s);
    assert begun.(extractor := Consumption.FRESH_LOOP, runs := map[])
           == s.(extractor := Consumption.FRESH_LOOP).(now := begun.now);
    var rejected := LaterIsRejected(c, may, content, begun, error);
    t := CommitCoversEarlier(c, may, rejected);
  }

  lemma TwoSlotsAreUnsafe(c: Config, content: Bytes)
    requires IsBucket(c.bucket) && c.slots >= 2 && Passes(c, content)
    ensures !AlwaysSafe(c)
  {
    var may: Converter := (content, conversion) => true;
    var t := UnsafeReaches(c, may, content);
    var run, steps := RunTo(c, may, TwoTenants(), t);
    assert !OffsetsSafe(run[|steps|]);
  }

  lemma NothingFetchedIsSafe(c: Config, run: seq<State>, steps: seq<Step>, n: nat)
    requires IsRun(c, run, steps) && n <= |steps| && !exists content :: Passes(c, content)
    ensures OffsetsSafe(run[n])
  {
    if i: nat :| i < |run[n].log| && run[n].log[i].lane.topic == FetchedTopic {
      FetchedHasPassed(c, run, steps, n, i);
      assert false;
    }
  }

  /** The offsets that the extractor commits are safe in every run if and only if it has one slot, or no document at
      all can pass the fetcher. */
  lemma OffsetsSafeIffOneSlot(c: Config)
    requires IsBucket(c.bucket) && c.slots >= 1
    ensures AlwaysSafe(c) <==> c.slots == 1 || !exists content :: Passes(c, content)
  {
    if c.slots == 1 {
      forall run: seq<State>, steps: seq<Step>, n: nat | IsRun(c, run, steps) && n <= |steps|
        ensures OffsetsSafe(run[n])
      {
        OneSlotIsSafe(c, run, steps, n);
      }
    } else if content :| Passes(c, content) {
      TwoSlotsAreUnsafe(c, content);
    } else {
      forall run: seq<State>, steps: seq<Step>, n: nat | IsRun(c, run, steps) && n <= |steps|
        ensures OffsetsSafe(run[n])
      {
        NothingFetchedIsSafe(c, run, steps, n);
      }
    }
  }
}
