/** Exactly when the two size limits behind the API reject a document in some run. */
module LimitsExact {
  import opened Domain
  import opened Ledger
  import opened Provenance
  import opened SourceKeys
  import opened Pipeline
  import opened PipelineInvariant
  import opened PipelineSteps
  import opened Guarantees
  import opened Reachability
  import opened Ingestion
  import opened Samples
  import Streams

  // ---- The fetcher's limit ----

  predicate RejectedForSize(s: State, i: nat) {
    && i < |s.db.outbox| && s.db.outbox[i].event.DocumentFetchRejected?
    && s.db.outbox[i].event.fetchError == DocumentTooLarge
  }

  ghost predicate SizeRejectionHappens(c: Config) {
    exists run: seq<State>, steps: seq<Step>, n: nat, i: nat ::
      IsRun(c, run, steps) && n <= |steps| && RejectedForSize(run[n], i)
  }

  lemma TooLargeIsStored(c: Config, db: Db, e: Event, newId: Id, now: Time, after: Db)
    requires FetchApplies(db, e, FetchInputs(None, Some(DocumentTooLarge)), newId, now, after)
    ensures |after.outbox| == |db.outbox| + 1
    ensures after.outbox[|db.outbox|].event == FetchFailure(e, DocumentTooLarge, newId)
  {
    var event := FetchFailure(e, DocumentTooLarge, newId);
    assert View(after).events == View(db).events + [event];
    assert |View(after).events| == |View(db).events| + 1;
    assert after.outbox[|db.outbox|].event == View(after).events[|db.outbox|];
  }

  lemma TooLargeHappens(c: Config, may: Converter, content: Bytes) returns (t: State)
    requires IsBucket(c.bucket) && c.slots >= 1 && c.fetcherMax < |content| <= c.apiMax && Streams.IsPdf(content)
    requires c.fetcherMax + 1 >= |Streams.SIGNATURE|
    ensures Reaches(c, may, OneTenant(), t) && RejectedForSize(t, 1)
  {
    var s, call := OneTenant(), SampleCall('1', content);
    SampleStarts(c, may, {Uuid('1')});
    SampleCanSubmit(c, s, '1', content);
    var mid := SubmitsAndPublishes(c, may, s, s, call);
    assert Uuid('2')[0] != Uuid('1')[0];
    SubmittedCanBeFetched(c, may, s, s, call, Uuid('2'), mid);
    Inspects(c, mid.sources, call);
    var inputs := FetchInputs(None, Some(DocumentTooLarge));
    t := FetchReaches(c, may, s, mid, 0, |Streams.SIGNATURE|, inputs, Uuid('2'));
    TooLargeIsStored(c, mid.db, RootEvent(c, call), Uuid('2'), mid.now + 2, t.db);
    assert |mid.db.outbox| == |Events(mid.db.outbox)| == 1;
  }

  /** `document_too_large` is stored in some run if and only if the API accepts more than the fetcher, and the fetcher's
      first read can hold a PDF signature: below that limit the signature is what it rejects. */
  lemma SizeRejectionIff(c: Config)
    requires IsBucket(c.bucket) && c.slots >= 1
    ensures SizeRejectionHappens(c) <==> c.apiMax > c.fetcherMax && c.fetcherMax + 1 >= |Streams.SIGNATURE|
  {
    if c.apiMax > c.fetcherMax && c.fetcherMax + 1 >= |Streams.SIGNATURE| {
      var may: Converter := (content, conversion) => true;
      var t := TooLargeHappens(c, may, Streams.SIGNATURE + seq(c.apiMax - |Streams.SIGNATURE|, i => 0));
      var run, steps := RunTo(c, may, OneTenant(), t);
      assert RejectedForSize(run[|steps|], 1);
    }
    forall run: seq<State>, steps: seq<Step>, n: nat, i: nat
      | IsRun(c, run, steps) && n <= |steps| && RejectedForSize(run[n], i)
      ensures c.apiMax > c.fetcherMax && c.fetcherMax + 1 >= |Streams.SIGNATURE|
    {
      FetchRejections(c, run, steps, n, i);
    }
  }

  // ---- The extractor's limit ----

  predicate SourceRejectedForSize(s: State, i: nat) {
    && i < |s.db.outbox| && s.db.outbox[i].event.ContentExtractionRejected?
    && s.db.outbox[i].event.extractError == SourceTooLarge
  }

  ghost predicate SourceTooLargeHappens(c: Config) {
    exists run: seq<State>, steps: seq<Step>, n: nat, i: nat ::
      IsRun(c, run, steps) && n <= |steps| && SourceRejectedForSize(run[n], i)
  }

  predicate TooLargeToExtract(c: Config, content: Bytes) {
    Passes(c, content) && |content| > c.extractMax
  }

  lemma OutcomeIsStored(c: Config, db: Db, e: Event, outcome: Result<ExtractionStatus, ExtractError>, newId: Id,
                        now: Time, after: Db)
    requires ExtractApplies(c, db, e, outcome, newId, now, after)
    ensures |after.outbox| == |db.outbox| + 1
    ensures after.outbox[|db.outbox|].event
            == ExtractOutcome(e, outcome, NormalizedUriFor(c, e), ManifestUriFor(c, e), newId)
  {
    var event := ExtractOutcome(e, outcome, NormalizedUriFor(c, e), ManifestUriFor(c, e), newId);
    assert View(after).events == View(db).events + [event];
    assert |View(after).events| == |View(db).events| + 1;
    assert after.outbox[|db.outbox|].event == View(after).events[|db.outbox|];
  }

  /** The extractor reads the sample document, which is too large for it. */
  lemma TooLargeBegins(c: Config, may: Converter, content: Bytes) returns (t: State)
    requires IsBucket(c.bucket) && c.slots >= 1 && TooLargeToExtract(c, content)
    requires may(content, Streams.NotConverted)
    ensures Reaches(c, may, OneTenant(), t) && t.runs == map[0 := ExtractRun(1, Err(SourceTooLarge), 0, false)]
    ensures Readable(t, 1) && EventAt(t, 1) == FetchedEvent(c, SampleCall('1', content), Uuid('2'))
    ensures ExtractIsNew(t, 1, Uuid('3')) && |t.db.outbox| == 2
  {
    var s := SampleReaches(c, may, content);
    t := s.(now := s.now + 1, runs := map[0 := ExtractRun(1, Err(SourceTooLarge), 0, false)]);
    assert s.runs[0 := ExtractRun(1, Err(SourceTooLarge), 0, false)] == t.runs;
    ExtractionBeginReaches(c, may, OneTenant(), s, 0, 1, Streams.NotConverted, false, t);
  }

  lemma SourceIsTooLarge(c: Config, may: Converter, content: Bytes) returns (t: State)
    requires IsBucket(c.bucket) && c.slots >= 1 && TooLargeToExtract(c, content)
    requires may(content, Streams.NotConverted)
    ensures Reaches(c, may, OneTenant(), t) && SourceRejectedForSize(t, 2)
  {
    var s := TooLargeBegins(c, may, content);
    var db := ExtractionReaches(c, may, OneTenant(), s, 0, Uuid('3'));
    OutcomeIsStored(c, s.db, EventAt(s, 1), Err(SourceTooLarge), Uuid('3'), s.now + 1, db);
    t := AfterFinish(s, 0, db);
  }

  lemma TooLargeSourceHadPassed(c: Config, run: seq<State>, steps: seq<Step>, n: nat, i: nat)
    requires IsRun(c, run, steps) && n <= |steps| && SourceRejectedForSize(run[n], i)
    ensures exists content :: TooLargeToExtract(c, content)
  {
    var v := VersionRef(run[n].db.outbox[i].event);
    FetchedHadPassed(c, run, steps, n, i);
    StoredOutcome(c, run, steps, n, i);
    assert TooLargeToExtract(c, BytesOf(c, run[n].sources, run[n].db.versions[v]));
  }

  /** `source_too_large` is stored in some run if and only if a document of such a size passes both earlier stages. */
  lemma SourceTooLargeIff(c: Config)
    requires IsBucket(c.bucket) && c.slots >= 1
    ensures SourceTooLargeHappens(c) <==> exists content :: TooLargeToExtract(c, content)
  {
    if content :| TooLargeToExtract(c, content) {
      var may: Converter := (content, conversion) => true;
      var t := SourceIsTooLarge(c, may, content);
      var run, steps := RunTo(c, may, OneTenant(), t);
      assert SourceRejectedForSize(run[|steps|], 2);
    }
    forall run: seq<State>, steps: seq<Step>, n: nat, i: nat
      | IsRun(c, run, steps) && n <= |steps| && SourceRejectedForSize(run[n], i)
      ensures exists content :: TooLargeToExtract(c, content)
    {
      TooLargeSourceHadPassed(c, run, steps, n, i);
    }
  }
}
