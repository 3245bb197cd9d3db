/** The whole way of one document through the pipeline, from any state that a run reaches. */
module Ingestion {
  import opened Domain
  import opened Ledger
  import opened Provenance
  import opened SourceKeys
  import opened Pipeline
  import opened PipelineSteps
  import opened Reachability
  import Consumption
  import Outbox
  import Streams

  /** The fetcher lets `content` pass. */
  predicate Passes(c: Config, content: Bytes) {
    Streams.IsPdf(content) && |content| <= c.apiMax && |content| <= c.fetcherMax && c.parse(content).Pages?
  }

  /** The file name leaves the URI whole. */
  predicate IsPlain(filename: string) {
    forall ch :: ch in filename ==> !Breaking(ch)
  }

  function RootEvent(c: Config, call: Call): Event {
    SubmissionFor(c, call).event
  }

  /** A request for a PDF that the API accepts and that violates no constraint. */
  ghost predicate CanSubmit(c: Config, s: State, call: Call) {
    RequestEnabled(c, s, Receive(call)) && !Violates(s.db, SubmissionFor(c, call)) && call.mimeType == PDF_MIME
  }

  function DocumentOf(call: Call): Ref {
    (call.tenantId, call.documentId)
  }

  function VersionKey(call: Call): Ref {
    (call.tenantId, call.versionId)
  }

  /** What is processed is stored. */
  lemma ProcessedIsStored(db: Db, key: Key)
    requires Lineage(View(db)) && key in db.processed
    ensures EventStored(db.outbox, key.0, key.1)
  {
    var events := View(db).events;
    var i :| 0 <= i < |events| && EffectKey(events[i]) == Some(key);
    assert HasParent(events, events[i]);
    var j: nat :| Parented(events, events[i], j);
    assert events[j] == db.outbox[j].event;
  }

  lemma NewKey(c: Config, may: Converter, o: State, s: State, tenant: Id, eventId: Id, consumer: Consumer)
    requires Reaches(c, may, o, s) && !EventStored(s.db.outbox, tenant, eventId)
    ensures (tenant, eventId, consumer) !in s.db.processed
  {
    ReachedInv(c, may, o, s);
    if (tenant, eventId, consumer) in s.db.processed {
      ProcessedIsStored(s.db, (tenant, eventId, consumer));
    }
  }

  lemma ReachedBucket(c: Config, may: Converter, o: State, s: State)
    requires Reaches(c, may, o, s)
    ensures IsBucket(c.bucket)
  {
    ReachedInv(c, may, o, s);
  }

  // ---- A new row in the log ----

  /** The event is the last of the outbox and the last of the log. */
  ghost predicate Published(s: State, e: Event, t: State) {
    && Events(t.db.outbox) == Events(s.db.outbox) + [e] && NoneWaits(t.db.outbox)
    && |t.log| == |s.log| + 1 && s.log <= t.log && s.wire <= t.wire
    && Readable(t, |s.log|) && EventAt(t, |s.log|) == e
    && t.log[|s.log|].lane == Consumption.Lane(TopicOf(e), 0)
    && t.publishers == s.publishers
  }

  lemma NewRowIsFirst(rows: seq<Outbox.Row>, e: Event, now: Time)
    requires NoneWaits(rows)
    ensures IsFirst(rows + [Outbox.NewRow(e, TopicOf(e), now)], now, |rows|)
  {
  }

  lemma NewRowIsPublished(s: State, e: Event, u: State, p: nat)
    requires NoneWaits(s.db.outbox) && u.db.outbox == s.db.outbox + [Outbox.NewRow(e, TopicOf(e), u.now)]
    requires u.log == s.log && u.wire == s.wire && u.publishers == s.publishers
    ensures Published(s, e, AfterPublish(u, |s.db.outbox|, p))
  {
    PublishedRecord(u, |s.db.outbox|, p);
    assert Events(u.db.outbox) == Events(s.db.outbox) + [e];
  }

  /** A transaction that has just stored `e` when no other row waited. */
  lemma NewRowReaches(c: Config, may: Converter, o: State, s: State, e: Event, u: State) returns (t: State)
    requires Reaches(c, may, o, u) && NoneWaits(s.db.outbox)
    requires u.db.outbox == s.db.outbox + [Outbox.NewRow(e, TopicOf(e), u.now)]
    requires u.log == s.log && u.wire == s.wire && u.publishers == s.publishers
    ensures Reaches(c, may, o, t) && Published(s, e, t)
    ensures t == u.(now := t.now, db := u.db.(outbox := t.db.outbox), wire := t.wire, log := t.log)
  {
    var p := NewPublisher(u);
    NewRowIsFirst(s.db.outbox, e, u.now);
    PublishReaches(c, may, o, u, |s.db.outbox|, p);
    NewRowIsPublished(s, e, u, p);
    t := AfterPublish(u, |s.db.outbox|, p);
  }

  // ---- The submission ----

  /** The request is carried through, and its event is in the log. */
  ghost predicate IsSubmitted(c: Config, s: State, call: Call, t: State) {
    && Published(s, RootEvent(c, call), t)
    && t == s.(now := t.now, db := t.db, wire := t.wire, log := t.log, issued := s.issued + {call.documentId},
               sources := s.sources[KeyFor(call) := call.content])
    && t.db.tenants == s.db.tenants && t.db.processed == s.db.processed
    && t.db.documents == s.db.documents[DocumentOf(call) :=
                                          DocumentRow(call.externalId, StatusSubmitted, Some(call.versionId))]
    && t.db.versions == s.db.versions[VersionKey(call) := NewVersion(SubmissionFor(c, call))]
  }

  lemma SubmitsAndPublishes(c: Config, may: Converter, o: State, s: State, call: Call) returns (t: State)
    requires Reaches(c, may, o, s) && CanSubmit(c, s, call) && NoneWaits(s.db.outbox)
    ensures Reaches(c, may, o, t) && IsSubmitted(c, s, call, t)
  {
    SubmissionReaches(c, may, o, s, call);
    t := NewRowReaches(c, may, o, s, RootEvent(c, call), AfterSubmission(c, s, call));
  }

  // ---- The fetch of it ----

  function InspectionOf(c: Config, content: Bytes): Streams.SourceInspection
    requires Passes(c, content)
  {
    Streams.SourceInspection(PDF_MIME, c.sha(content), |content|, c.parse(content).count)
  }

  function FetchedEvent(c: Config, call: Call, newId: Id): Event {
    var root := RootEvent(c, call);
    BuildDocumentFetched(newId, call.tenantId, call.documentId, call.versionId, root.payloadUri, PDF_MIME,
                         c.sha(call.content), |call.content|, root.correlationId, root.eventId)
  }

  function FetchedRow(c: Config, call: Call): VersionRow {
    NewVersion(SubmissionFor(c, call)).(detectedMimeType := Some(PDF_MIME), inspection := InspectionValid)
  }

  lemma ReadsBack(c: Config, sources: map<string, Bytes>, call: Call)
    requires IsBucket(c.bucket) && IsUuid(call.tenantId) && IsUuid(call.documentId) && IsPlain(call.filename)
    requires KeyFor(call) in sources
    ensures ReadSource(c, sources, RootEvent(c, call).payloadUri) == Some(sources[KeyFor(call)])
  {
    UriRoundTrip(c.bucket, call.tenantId, call.documentId, call.filename);
  }

  lemma Inspects(c: Config, sources: map<string, Bytes>, call: Call)
    requires IsBucket(c.bucket) && IsUuid(call.tenantId) && IsUuid(call.documentId) && IsPlain(call.filename)
    requires KeyFor(call) in sources && sources[KeyFor(call)] == call.content && Streams.IsPdf(call.content)
    requires c.fetcherMax + 1 >= |Streams.SIGNATURE|
    ensures var inputs := FetchInputsFor(c, sources, RootEvent(c, call), |Streams.SIGNATURE|);
            && (Passes(c, call.content) ==> inputs == Some(FetchInputs(Some(InspectionOf(c, call.content)), None)))
            && (|call.content| > c.fetcherMax ==> inputs == Some(FetchInputs(None, Some(DocumentTooLarge))))
  {
    ReadsBack(c, sources, call);
    assert call.content[..|Streams.SIGNATURE|] == Streams.SIGNATURE;
  }

  /** The document is fetched, and the event that says so is in the log. */
  ghost predicate IsFetched(c: Config, s: State, call: Call, newId: Id, t: State) {
    && Published(s, FetchedEvent(c, call, newId), t)
    && t == s.(now := t.now, db := t.db, wire := t.wire, log := t.log)
    && t.db.tenants == s.db.tenants && t.db.processed == s.db.processed + {FetchKey(RootEvent(c, call))}
    && t.db.documents == s.db.documents[DocumentOf(call) :=
                                          DocumentRow(call.externalId, StatusFetched, Some(call.versionId))]
    && t.db.versions == s.db.versions[VersionKey(call) := FetchedRow(c, call)]
  }

  /** The rows of `call` as its submission left them. */
  ghost predicate IsStored(c: Config, s: State, call: Call) {
    && DocumentOf(call) in s.db.documents && VersionKey(call) in s.db.versions
    && s.db.documents[DocumentOf(call)] == DocumentRow(call.externalId, StatusSubmitted, Some(call.versionId))
    && s.db.versions[VersionKey(call)] == NewVersion(SubmissionFor(c, call))
    && KeyFor(call) in s.sources && s.sources[KeyFor(call)] == call.content
  }

  /** What the fetch left in the tables. */
  ghost predicate IsFetchedDb(c: Config, before: Db, call: Call, newId: Id, now: Time, db: Db) {
    && db.tenants == before.tenants && db.processed == before.processed + {FetchKey(RootEvent(c, call))}
    && db.documents == before.documents[DocumentOf(call) :=
                                          DocumentRow(call.externalId, StatusFetched, Some(call.versionId))]
    && db.versions == before.versions[VersionKey(call) := FetchedRow(c, call)]
    && db.outbox == before.outbox + [Outbox.NewRow(FetchedEvent(c, call, newId), FetchedTopic, now)]
  }

  lemma FetchedTables(c: Config, s: State, call: Call, newId: Id, now: Time, db: Db)
    requires Passes(c, call.content) && call.mimeType == PDF_MIME && IsStored(c, s, call)
    requires FetchApplies(s.db, RootEvent(c, call), FetchInputs(Some(InspectionOf(c, call.content)), None), newId,
                          now, db)
    ensures IsFetchedDb(c, s.db, call, newId, now, db)
  {
    var event := FetchedEvent(c, call, newId);
    assert VersionOf(View(s.db), Doc(RootEvent(c, call))) == VersionKey(call);
    assert View(db).events == View(s.db).events + [event];
    assert |View(db).events| == |View(s.db).events| + 1;
    assert db.outbox[|s.db.outbox|].event == View(db).events[|s.db.outbox|] == event;
    assert View(db).documents == db.documents && View(db).versions == db.versions;
  }

  lemma FetchesAndPublishes(c: Config, may: Converter, o: State, s: State, i: nat, call: Call, newId: Id)
    returns (t: State)
    requires Reaches(c, may, o, s) && NoneWaits(s.db.outbox)
    requires Readable(s, i) && s.log[i].lane.topic == SubmittedTopic && EventAt(s, i) == RootEvent(c, call)
    requires IsUuid(call.tenantId) && IsUuid(call.documentId) && IsPlain(call.filename)
    requires Passes(c, call.content) && call.mimeType == PDF_MIME && IsStored(c, s, call) && FetchIsNew(s, i, newId)
    ensures Reaches(c, may, o, t) && IsFetched(c, s, call, newId, t)
  {
    ReachedBucket(c, may, o, s);
    Inspects(c, s.sources, call);
    var inputs := FetchInputs(Some(InspectionOf(c, call.content)), None);
    var u := FetchReaches(c, may, o, s, i, |Streams.SIGNATURE|, inputs, newId);
    FetchedTables(c, s, call, newId, u.now, u.db);
    t := NewRowReaches(c, may, o, s, FetchedEvent(c, call, newId), u);
  }

  // ---- Both together ----

  ghost predicate NewEventId(s: State, call: Call, newId: Id) {
    newId != call.eventId && !EventStored(s.db.outbox, call.tenantId, newId)
  }

  /** Two more records: the submission, and after it what the fetcher made of it. */
  ghost predicate IsIngested(c: Config, s: State, call: Call, newId: Id, t: State) {
    && t == s.(now := t.now, db := t.db, wire := t.wire, log := t.log, issued := s.issued + {call.documentId},
               sources := s.sources[KeyFor(call) := call.content])
    && |t.log| == |s.log| + 2 && s.log <= t.log && s.wire <= t.wire
    && t.log[|s.log|].lane == Consumption.Lane(SubmittedTopic, 0)
    && t.log[|s.log| + 1].lane == Consumption.Lane(FetchedTopic, 0)
    && Readable(t, |s.log| + 1) && EventAt(t, |s.log| + 1) == FetchedEvent(c, call, newId)
    && Events(t.db.outbox) == Events(s.db.outbox) + [RootEvent(c, call), FetchedEvent(c, call, newId)]
    && NoneWaits(t.db.outbox)
    && t.db.tenants == s.db.tenants && t.db.processed == s.db.processed + {FetchKey(RootEvent(c, call))}
    && t.db.documents == s.db.documents[DocumentOf(call) :=
                                          DocumentRow(call.externalId, StatusFetched, Some(call.versionId))]
    && t.db.versions == s.db.versions[VersionKey(call) := FetchedRow(c, call)]
  }

  lemma MoreEvents(s: State, more: seq<Event>, t: State, tenant: Id, newId: Id)
    requires Events(t.db.outbox) == Events(s.db.outbox) + more && !EventStored(s.db.outbox, tenant, newId)
    requires forall e :: e in more && e.tenantId == tenant ==> e.eventId != newId
    ensures !EventStored(t.db.outbox, tenant, newId)
  {
    forall r | 0 <= r < |t.db.outbox| && t.db.outbox[r].event.tenantId == tenant
      ensures t.db.outbox[r].event.eventId != newId
    {
      assert t.db.outbox[r].event == Events(t.db.outbox)[r];
      if r < |s.db.outbox| {
        assert Events(t.db.outbox)[r] == Events(s.db.outbox)[r] == s.db.outbox[r].event;
      } else {
        assert Events(t.db.outbox)[r] == more[r - |s.db.outbox|];
      }
    }
  }

  lemma BothAreIngested(c: Config, s: State, call: Call, newId: Id, mid: State, t: State)
    requires IsSubmitted(c, s, call, mid) && IsFetched(c, mid, call, newId, t)
    ensures IsIngested(c, s, call, newId, t)
  {
    assert t.log[|s.log|] == mid.log[|s.log|];
  }

  lemma SubmittedCanBeFetched(c: Config, may: Converter, o: State, s: State, call: Call, newId: Id, t: State)
    requires Reaches(c, may, o, s) && CanSubmit(c, s, call) && IsSubmitted(c, s, call, t) && NewEventId(s, call, newId)
    ensures IsStored(c, t, call) && FetchIsNew(t, |s.log|, newId)
  {
    MoreEvents(s, [RootEvent(c, call)], t, call.tenantId, newId);
    NewKey(c, may, o, s, call.tenantId, call.eventId, DocumentFetcher);
  }

  /** When no row waits, a PDF that passes the fetcher can be carried straight to the extractor's topic. */
  lemma Ingests(c: Config, may: Converter, o: State, s: State, call: Call, newId: Id) returns (t: State)
    requires Reaches(c, may, o, s) && CanSubmit(c, s, call) && IsPlain(call.filename) && Passes(c, call.content)
    requires NewEventId(s, call, newId) && NoneWaits(s.db.outbox)
    ensures Reaches(c, may, o, t) && IsIngested(c, s, call, newId, t)
  {
    var mid := SubmitsAndPublishes(c, may, o, s, call);
    SubmittedCanBeFetched(c, may, o, s, call, newId, mid);
    t := FetchesAndPublishes(c, may, o, mid, |s.log|, call, newId);
    BothAreIngested(c, s, call, newId, mid, t);
  }

  // ---- The extraction ----

  function ExtractedEvent(c: Config, call: Call, newId: Id, status: ExtractionStatus, outId: Id): Event {
    var e := FetchedEvent(c, call, newId);
    BuildContentExtracted(outId, e.tenantId, e.documentId, e.documentVersionId, e.contentSha256, NormalizedUriFor(c, e),
                          ManifestUriFor(c, e), status, e.correlationId, e.eventId)
  }

  function ExtractedRow(c: Config, call: Call, newId: Id, status: ExtractionStatus): VersionRow {
    var e := FetchedEvent(c, call, newId);
    FetchedRow(c, call).(extraction := status, normalizedUri := Some(NormalizedUriFor(c, e)),
                         manifestUri := Some(ManifestUriFor(c, e)))
  }

  function FinalStatus(status: ExtractionStatus): DocumentStatus {
    if status == Succeeded then StatusExtracted else StatusFailed
  }

  function WithArtifacts(artifacts: map<string, Streams.Artifact>, e: Event, result: Streams.ExtractionResult)
    : map<string, Streams.Artifact>
    requires e.DocumentFetched?
  {
    artifacts[NormalizedFor(e) := Streams.NormalizedOf(result)]
             [ManifestFor(e) := Streams.ManifestOf(result, e.contentSha256)]
  }

  /** The conversion of `content` succeeds with `result`. */
  predicate Converts(c: Config, content: Bytes, conversion: Streams.Conversion, result: Streams.ExtractionResult) {
    Streams.Extract(content, c.extractMax, c.sha(content), c.sha, conversion) == Streams.Extracted(result)
  }

  /** The document is fetched, its event is record `i`, and nothing is extracted yet. */
  ghost predicate CanExtract(c: Config, s: State, i: nat, call: Call, newId: Id, outId: Id) {
    && Readable(s, i) && s.log[i].lane.topic == FetchedTopic && EventAt(s, i) == FetchedEvent(c, call, newId)
    && DocumentOf(call) in s.db.documents && VersionKey(call) in s.db.versions
    && s.db.documents[DocumentOf(call)] == DocumentRow(call.externalId, StatusFetched, Some(call.versionId))
    && s.db.versions[VersionKey(call)] == FetchedRow(c, call)
    && ReadSource(c, s.sources, EventAt(s, i).payloadUri) == Some(call.content)
    && ExtractIsNew(s, i, outId)
  }

  /** A handler has stored both artifacts of the record and is about to complete it. */
  function WithRun(s: State, r: nat, i: nat, e: Event, result: Streams.ExtractionResult): State
    requires e.DocumentFetched?
  {
    s.(now := s.now + 3, runs := s.runs[r := ExtractRun(i, Ok(result), 2, false)],
       artifacts := WithArtifacts(s.artifacts, e, result))
  }

  lemma OutcomeIsResult(c: Config, s: State, i: nat, call: Call, newId: Id, outId: Id, conversion: Streams.Conversion,
                        result: Streams.ExtractionResult)
    requires CanExtract(c, s, i, call, newId, outId) && Converts(c, call.content, conversion, result)
    ensures ExtractOutcomeFor(c, s.sources, EventAt(s, i), conversion) == Some(Ok(result))
    ensures EventAt(s, i).DocumentFetched? && ReadSource(c, s.sources, EventAt(s, i).payloadUri) == Some(call.content)
  {
  }

  function BegunRun(s: State, r: nat, i: nat, result: Streams.ExtractionResult): State {
    s.(now := s.now + 1, runs := s.runs[r := ExtractRun(i, Ok(result), 0, false)])
  }

  lemma BegunReaches(c: Config, may: Converter, o: State, s: State, r: nat, i: nat, call: Call, newId: Id, outId: Id,
                     conversion: Streams.Conversion, result: Streams.ExtractionResult)
    requires Reaches(c, may, o, s) && CanExtract(c, s, i, call, newId, outId) && r !in s.runs
    requires may(call.content, conversion) && Converts(c, call.content, conversion, result)
    ensures Reaches(c, may, o, BegunRun(s, r, i, result))
  {
    OutcomeIsResult(c, s, i, call, newId, outId, conversion, result);
    ExtractionBeginReaches(c, may, o, s, r, i, conversion, false, BegunRun(s, r, i, result));
  }

  lemma StoredReaches(c: Config, may: Converter, o: State, s: State, r: nat, i: nat, e: Event,
                      result: Streams.ExtractionResult)
    requires Readable(s, i) && EventAt(s, i) == e && e.DocumentFetched?
    requires Reaches(c, may, o, BegunRun(s, r, i, result))
    ensures Reaches(c, may, o, WithRun(s, r, i, e, result))
  {
    var begun, t := BegunRun(s, r, i, result), WithRun(s, r, i, e, result);
    assert begun.runs[r := ExtractRun(i, Ok(result), 2, false)] == t.runs;
    ArtifactsReach(c, may, o, begun, r, t);
  }

  /** What the extraction left in the tables. */
  ghost predicate IsExtractedDb(c: Config, before: Db, call: Call, newId: Id, outId: Id, status: ExtractionStatus,
                                now: Time, db: Db)
  {
    && db.tenants == before.tenants && db.processed == before.processed + {ExtractKey(FetchedEvent(c, call, newId))}
    && db.documents == before.documents[DocumentOf(call) :=
                                          DocumentRow(call.externalId, FinalStatus(status), Some(call.versionId))]
    && db.versions == before.versions[VersionKey(call) := ExtractedRow(c, call, newId, status)]
    && db.outbox == before.outbox + [Outbox.NewRow(ExtractedEvent(c, call, newId, status, outId), ExtractedTopic, now)]
  }

  lemma ExtractedTables(c: Config, s: State, i: nat, call: Call, newId: Id, outId: Id, status: ExtractionStatus,
                        now: Time, db: Db)
    requires CanExtract(c, s, i, call, newId, outId)
    requires ExtractApplies(c, s.db, FetchedEvent(c, call, newId), Ok(status), outId, now, db)
    ensures IsExtractedDb(c, s.db, call, newId, outId, status, now, db)
  {
    var event := ExtractedEvent(c, call, newId, status, outId);
    assert VersionOf(View(s.db), Doc(FetchedEvent(c, call, newId))) == VersionKey(call);
    assert View(db).events == View(s.db).events + [event];
    assert |View(db).events| == |View(s.db).events| + 1;
    assert db.outbox[|s.db.outbox|].event == View(db).events[|s.db.outbox|] == event;
    assert View(db).documents == db.documents && View(db).versions == db.versions;
  }

  ghost predicate IsExtracted(c: Config, s: State, call: Call, newId: Id, outId: Id, result: Streams.ExtractionResult,
                              t: State)
  {
    && Published(s, ExtractedEvent(c, call, newId, result.status, outId), t)
    && t == s.(now := t.now, db := t.db, wire := t.wire, log := t.log,
               artifacts := WithArtifacts(s.artifacts, FetchedEvent(c, call, newId), result))
    && t.db.tenants == s.db.tenants
    && t.db.processed == s.db.processed + {ExtractKey(FetchedEvent(c, call, newId))}
    && t.db.documents == s.db.documents[DocumentOf(call) :=
                                          DocumentRow(call.externalId, FinalStatus(result.status),
                                                      Some(call.versionId))]
    && t.db.versions == s.db.versions[VersionKey(call) := ExtractedRow(c, call, newId, result.status)]
  }

  lemma RunCanBeRecorded(c: Config, s: State, r: nat, i: nat, call: Call, newId: Id, outId: Id,
                         result: Streams.ExtractionResult, stored: State)
    requires CanExtract(c, s, i, call, newId, outId) && r !in s.runs
    requires stored == WithRun(s, r, i, FetchedEvent(c, call, newId), result)
    ensures Readable(stored, i) && EventAt(stored, i) == FetchedEvent(c, call, newId) && ExtractIsNew(stored, i, outId)
    ensures r in stored.runs && stored.runs[r] == ExtractRun(i, Ok(result), 2, false) && stored.db == s.db
    ensures stored.runs - {r} == s.runs
  {
  }

  lemma RecordedReaches(c: Config, may: Converter, o: State, s: State, r: nat, e: Event, outId: Id,
                        result: Streams.ExtractionResult)
    returns (db: Db)
    requires Reaches(c, may, o, s) && r in s.runs && s.runs[r].outcome == Ok(result) && s.runs[r].stored == 2
    requires !s.runs[r].owned && Readable(s, s.runs[r].record) && EventAt(s, s.runs[r].record) == e
    requires ExtractIsNew(s, s.runs[r].record, outId)
    ensures Reaches(c, may, o, s.(now := s.now + 1, db := db, runs := s.runs - {r}))
    ensures ExtractApplies(c, s.db, e, Ok(result.status), outId, s.now + 1, db)
  {
    db := ExtractionReaches(c, may, o, s, r, outId);
    assert AfterFinish(s, r, db) == s.(now := s.now + 1, db := db, runs := s.runs - {r});
  }

  /** The extraction of a fetched document can be stored and recorded. */
  lemma ResultReaches(c: Config, may: Converter, o: State, s: State, i: nat, call: Call, newId: Id, outId: Id,
                      conversion: Streams.Conversion, result: Streams.ExtractionResult)
    returns (t: State)
    requires Reaches(c, may, o, s) && CanExtract(c, s, i, call, newId, outId)
    requires may(call.content, conversion) && Converts(c, call.content, conversion, result)
    ensures Reaches(c, may, o, t) && IsExtractedDb(c, s.db, call, newId, outId, result.status, t.now, t.db)
    ensures t == s.(now := t.now, db := t.db,
                    artifacts := WithArtifacts(s.artifacts, FetchedEvent(c, call, newId), result))
  {
    var r := Above(s.runs.Keys);
    var e := FetchedEvent(c, call, newId);
    BegunReaches(c, may, o, s, r, i, call, newId, outId, conversion, result);
    StoredReaches(c, may, o, s, r, i, e, result);
    var stored := WithRun(s, r, i, e, result);
    RunCanBeRecorded(c, s, r, i, call, newId, outId, result, stored);
    var db := RecordedReaches(c, may, o, stored, r, e, outId, result);
    ExtractedTables(c, s, i, call, newId, outId, result.status, stored.now + 1, db);
    t := stored.(now := stored.now + 1, db := db, runs := stored.runs - {r});
  }

  lemma ExtractsAndPublishes(c: Config, may: Converter, o: State, s: State, i: nat, call: Call, newId: Id, outId: Id,
                             conversion: Streams.Conversion, result: Streams.ExtractionResult)
    returns (t: State)
    requires Reaches(c, may, o, s) && CanExtract(c, s, i, call, newId, outId) && NoneWaits(s.db.outbox)
    requires may(call.content, conversion) && Converts(c, call.content, conversion, result)
    ensures Reaches(c, may, o, t) && IsExtracted(c, s, call, newId, outId, result, t)
  {
    var u := ResultReaches(c, may, o, s, i, call, newId, outId, conversion, result);
    t := NewRowReaches(c, may, o, s, ExtractedEvent(c, call, newId, result.status, outId), u);
  }

  // ---- The whole way ----

  /** The two event ids that the workers draw are new. */
  ghost predicate NewEventIds(s: State, call: Call, newId: Id, outId: Id) {
    NewEventId(s, call, newId) && NewEventId(s, call, outId) && newId != outId
  }

  /** The document is converted, with both artifacts stored and its three events published and in the log. No other
      document, version, object, request or handler has changed; of the other rows of the outbox those that waited are
      published. */
  ghost predicate IsCarried(c: Config, s: State, call: Call, newId: Id, outId: Id, result: Streams.ExtractionResult,
                            t: State)
  {
    var fetched := FetchedEvent(c, call, newId);
    var extracted := ExtractedEvent(c, call, newId, result.status, outId);
    && t == s.(now := t.now, db := t.db, wire := t.wire, log := t.log, issued := s.issued + {call.documentId},
               sources := s.sources[KeyFor(call) := call.content],
               artifacts := WithArtifacts(s.artifacts, fetched, result))
    && t.db.tenants == s.db.tenants
    && t.db.processed == s.db.processed + {FetchKey(RootEvent(c, call)), ExtractKey(fetched)}
    && t.db.documents == s.db.documents[DocumentOf(call) :=
                                          DocumentRow(call.externalId, FinalStatus(result.status),
                                                      Some(call.versionId))]
    && t.db.versions == s.db.versions[VersionKey(call) := ExtractedRow(c, call, newId, result.status)]
    && Events(t.db.outbox) == Events(s.db.outbox) + [RootEvent(c, call), fetched, extracted]
    && NoneWaits(t.db.outbox) && s.log <= t.log && s.wire <= t.wire && |t.log| > |s.log|
    && Readable(t, |t.log| - 1) && EventAt(t, |t.log| - 1) == extracted
    && t.log[|t.log| - 1].lane.topic == ExtractedTopic
  }

  lemma IngestedCanBeExtracted(c: Config, may: Converter, o: State, s: State, call: Call, newId: Id, outId: Id,
                               t: State)
    requires Reaches(c, may, o, s) && CanSubmit(c, s, call) && IsPlain(call.filename)
    requires NewEventIds(s, call, newId, outId) && IsIngested(c, s, call, newId, t)
    ensures CanExtract(c, t, |s.log| + 1, call, newId, outId)
  {
    ReachedBucket(c, may, o, s);
    ReadsBack(c, t.sources, call);
    NewKey(c, may, o, s, call.tenantId, newId, ContentExtractor);
    MoreEvents(s, [RootEvent(c, call), FetchedEvent(c, call, newId)], t, call.tenantId, outId);
  }

  lemma AllIsCarried(c: Config, s: State, call: Call, newId: Id, outId: Id, result: Streams.ExtractionResult,
                     drained: State, mid: State, t: State)
    requires IsDrained(s, drained) && IsIngested(c, drained, call, newId, mid)
    requires IsExtracted(c, mid, call, newId, outId, result, t)
    ensures IsCarried(c, s, call, newId, outId, result, t)
  {
  }

  lemma DrainedCanSubmit(c: Config, s: State, call: Call, newId: Id, outId: Id, t: State)
    requires CanSubmit(c, s, call) && NewEventIds(s, call, newId, outId) && IsDrained(s, t)
    ensures CanSubmit(c, t, call) && NewEventIds(t, call, newId, outId)
  {
    MoreEvents(s, [], t, call.tenantId, call.eventId);
    MoreEvents(s, [], t, call.tenantId, newId);
    MoreEvents(s, [], t, call.tenantId, outId);
  }

  /** From a state in which no row waits. */
  lemma QuietlyCarried(c: Config, may: Converter, o: State, s: State, call: Call, newId: Id, outId: Id,
                       conversion: Streams.Conversion, result: Streams.ExtractionResult)
    returns (mid: State, t: State)
    requires Reaches(c, may, o, s) && CanSubmit(c, s, call) && IsPlain(call.filename) && Passes(c, call.content)
    requires NewEventIds(s, call, newId, outId) && NoneWaits(s.db.outbox)
    requires may(call.content, conversion) && Converts(c, call.content, conversion, result)
    ensures Reaches(c, may, o, t)
    ensures IsIngested(c, s, call, newId, mid) && IsExtracted(c, mid, call, newId, outId, result, t)
  {
    mid := Ingests(c, may, o, s, call, newId);
    IngestedCanBeExtracted(c, may, o, s, call, newId, outId, mid);
    t := ExtractsAndPublishes(c, may, o, mid, |s.log| + 1, call, newId, outId, conversion, result);
  }

  /** From any state that a run reaches, whatever is under way in it: a request that violates no constraint, for a PDF
      that passes the fetcher under a file name that leaves the URI whole, can be carried through to its conversion,
      with the result of any conversion of its bytes that succeeds. */
  lemma CarriesThrough(c: Config, may: Converter, o: State, s: State, call: Call, newId: Id, outId: Id,
                       conversion: Streams.Conversion, result: Streams.ExtractionResult)
    returns (t: State)
    requires Reaches(c, may, o, s) && CanSubmit(c, s, call) && IsPlain(call.filename) && Passes(c, call.content)
    requires NewEventIds(s, call, newId, outId)
    requires may(call.content, conversion) && Converts(c, call.content, conversion, result)
    ensures Reaches(c, may, o, t) && IsCarried(c, s, call, newId, outId, result, t)
  {
    var drained := DrainReaches(c, may, o, s);
    DrainedCanSubmit(c, s, call, newId, outId, drained);
    var mid;
    mid, t := QuietlyCarried(c, may, o, drained, call, newId, outId, conversion, result);
    AllIsCarried(c, s, call, newId, outId, result, drained, mid, t);
  }
}
