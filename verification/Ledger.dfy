/** The database transactions of the API, the fetcher and the extractor, as functions on the tables. A transaction
    commits as one step, at time `now`, or raises and leaves the tables as they were. */
module Ledger {
  import opened Domain
  import opened Outbox
  import opened Streams

  type Ref = (Id, Id)            // (tenant_id, id)
  type Key = (Id, Id, Consumer)  // (tenant_id, event_id, consumer_name)

  datatype DocumentStatus = StatusSubmitted | StatusFetched | StatusExtracted | StatusFailed

  datatype InspectionStatus = InspectionPending | InspectionValid | InspectionInvalid

  datatype DocumentRow = DocumentRow(externalId: string, status: DocumentStatus, currentVersion: Option<Id>)

  datatype VersionRow =
    VersionRow(documentId: Id, contentSha256: string, sourceUri: string, mimeType: string, byteSize: nat,
               detectedMimeType: Option<string>, inspection: InspectionStatus, extraction: ExtractionStatus,
               normalizedUri: Option<string>, manifestUri: Option<string>, deleted: bool)

  datatype Db = Db(tenants: set<Id>, documents: map<Ref, DocumentRow>, versions: map<Ref, VersionRow>,
                   processed: set<Key>, outbox: seq<Row>)

  // `applied` is the boolean the repository method returns; `error` is the ExtractionError that was raised, if the
  // exception was one.
  datatype Tx = Committed(db: Db, applied: bool) | Raised(error: Option<ExtractError>)

  function Events(rows: seq<Row>): (r: seq<Event>)
    ensures |r| == |rows|
  {
    seq(|rows|, i requires 0 <= i < |rows| => rows[i].event)
  }

  // ---- SQL statements ----

  predicate EventStored(outbox: seq<Row>, tenant: Id, eventId: Id) {
    exists i :: 0 <= i < |outbox| && outbox[i].event.tenantId == tenant && outbox[i].event.eventId == eventId
  }

  function WithStatus(documents: map<Ref, DocumentRow>, ref: Ref, status: DocumentStatus): map<Ref, DocumentRow> {
    if ref in documents then documents[ref := documents[ref].(status := status)] else documents
  }

  /** INSERT INTO ingestion_outbox: (tenant_id, event_id) is unique. */
  function Enqueue(db: Db, event: Event, now: Time): Tx {
    if EventStored(db.outbox, event.tenantId, event.eventId) then Raised(None)
    else Committed(db.(outbox := db.outbox + [NewRow(event, TopicOf(event), now)]), true)
  }

  /** INSERT INTO processed_events ... ON CONFLICT DO NOTHING: None is the foreign-key error, Some(false) a
      duplicate. */
  function ClaimKey(db: Db, key: Key): Option<bool> {
    if key in db.processed then Some(false) else if key.0 !in db.tenants then None else Some(true)
  }

  // ---- create_submission ----

  datatype Submission =
    Submission(tenantId: Id, documentId: Id, versionId: Id, externalId: string, contentSha256: string,
               sourceUri: string, mimeType: string, byteSize: nat, event: Event)

  /** The primary keys, unique constraints and tenant reference that an insert of `s` would violate. */
  predicate Violates(db: Db, s: Submission) {
    || s.tenantId !in db.tenants
    || (exists d :: d in db.documents && d.1 == s.documentId)
    || (exists d :: d in db.documents && d.0 == s.tenantId && db.documents[d].externalId == s.externalId)
    || (exists v :: v in db.versions && v.1 == s.versionId)
    || (exists v :: v in db.versions && v.0 == s.tenantId && db.versions[v].contentSha256 == s.contentSha256)
    || EventStored(db.outbox, s.event.tenantId, s.event.eventId)
  }

  function NewVersion(s: Submission): VersionRow {
    VersionRow(s.documentId, s.contentSha256, s.sourceUri, s.mimeType, s.byteSize, None, InspectionPending,
               ExtractionPending, None, None, false)
  }

  function CreateSubmission(db: Db, s: Submission, now: Time): Tx {
    if Violates(db, s) then Raised(None)
    else
      var doc := (s.tenantId, s.documentId);
      Enqueue(db.(documents := db.documents[doc := DocumentRow(s.externalId, StatusSubmitted, Some(s.versionId))],
                  versions := db.versions[(s.tenantId, s.versionId) := NewVersion(s)]),
              s.event, now)
  }

  // ---- DocumentFetcherRepository.process ----

  predicate HasUri(e: Event) {
    e.DocumentSubmitted? || e.DocumentFetched? || e.DocumentFetchRejected?
  }

  function SourceVersions(versions: map<Ref, VersionRow>, tenant: Id, document: Id, uri: string): set<Ref> {
    set v | v in versions && v.0 == tenant && versions[v].documentId == document && versions[v].sourceUri == uri
            && !versions[v].deleted
  }

  function FetchFailure(e: Event, error: FetchError, newId: Id): Event
    requires HasUri(e)
  {
    BuildDocumentFetchRejected(newId, e.tenantId, e.documentId, e.payloadUri, e.correlationId, e.eventId, error)
  }

  /** The error that decides the outcome once the version row is known. */
  function FetchVerdict(v: VersionRow, inspection: Option<SourceInspection>, error: Option<FetchError>)
    : Option<FetchError>
  {
    var error1 := if inspection.Some? && inspection.value.contentSha256 != v.contentSha256
                  then Some(FetchChecksumMismatch) else error;
    if error1.None? && v.mimeType !in [PDF_MIME, OCTET_MIME] then Some(DeclaredMimeMismatch) else error1
  }

  ghost function Fetch(db: Db, e: Event, inspection: Option<SourceInspection>, error: Option<FetchError>, newId: Id,
                       now: Time): Tx
  {
    var key := (e.tenantId, e.eventId, DocumentFetcher);
    var claim := ClaimKey(db, key);
    if !HasUri(e) || claim.None? then Raised(None)
    else if !claim.value then Committed(db, false)
    else
      var db1 := db.(processed := db.processed + {key});
      var found := SourceVersions(db.versions, e.tenantId, e.documentId, e.payloadUri);
      if found == {} then Enqueue(db1, FetchFailure(e, UnknownSourceObject, newId), now)
      else if |found| > 1 then Raised(None)
      else
        var v :| v in found;
        FetchKnown(db1, e, v, inspection, error, newId, now)
  }

  function FetchKnown(db: Db, e: Event, v: Ref, inspection: Option<SourceInspection>, error: Option<FetchError>,
                      newId: Id, now: Time): Tx
    requires HasUri(e) && v in db.versions
  {
    var version := db.versions[v];
    var doc := (e.tenantId, e.documentId);
    var verdict := FetchVerdict(version, inspection, error);
    if verdict.Some? then
      Enqueue(db.(versions := db.versions[v := version.(inspection := InspectionInvalid)],
                  documents := WithStatus(db.documents, doc, StatusFailed)),
              FetchFailure(e, verdict.value, newId), now)
    else if inspection.None? then Raised(None)
    else
      var s := inspection.value;
      Enqueue(db.(versions := db.versions[v := version.(detectedMimeType := Some(s.detectedMimeType),
                                                        inspection := InspectionValid)],
                  documents := WithStatus(db.documents, doc, StatusFetched)),
              BuildDocumentFetched(newId, e.tenantId, e.documentId, v.1, e.payloadUri, s.detectedMimeType,
                                   s.contentSha256, s.byteSize, e.correlationId, e.eventId),
              now)
  }

  // ---- ContentExtractorRepository.complete and reject ----

  predicate HasVersion(e: Event) {
    e.DocumentFetched? || e.ContentExtracted? || e.ContentExtractionRejected?
  }

  predicate HasSha(e: Event) {
    e.DocumentFetched? || e.ContentExtracted?
  }

  predicate NamesLiveVersion(db: Db, e: Event)
    requires HasSha(e)
  {
    var v := (e.tenantId, e.documentVersionId);
    && v in db.versions
    && db.versions[v].documentId == e.documentId
    && db.versions[v].contentSha256 == e.contentSha256
    && !db.versions[v].deleted
  }

  function Complete(db: Db, e: Event, status: ExtractionStatus, normalizedUri: string, manifestUri: string,
                    newId: Id, now: Time): Tx
  {
    var key := (e.tenantId, e.eventId, ContentExtractor);
    var claim := ClaimKey(db, key);
    if !HasVersion(e) || claim.None? then Raised(None)
    else if !claim.value then Committed(db, false)
    else if !HasSha(e) then Raised(None)
    else if !NamesLiveVersion(db, e) then Raised(Some(UnknownDocumentVersion))
    else
      var v := (e.tenantId, e.documentVersionId);
      var version := db.versions[v].(normalizedUri := Some(normalizedUri), manifestUri := Some(manifestUri),
                                     extraction := status);
      Enqueue(db.(processed := db.processed + {key},
                  versions := db.versions[v := version],
                  documents := WithStatus(db.documents, (e.tenantId, e.documentId),
                                          if status == Succeeded then StatusExtracted else StatusFailed)),
              BuildContentExtracted(newId, e.tenantId, e.documentId, e.documentVersionId, e.contentSha256,
                                    normalizedUri, manifestUri, status, e.correlationId, e.eventId),
              now)
  }

  function Reject(db: Db, e: Event, error: ExtractError, newId: Id, now: Time): Tx {
    var key := (e.tenantId, e.eventId, ContentExtractor);
    var claim := ClaimKey(db, key);
    if !HasVersion(e) || claim.None? then Raised(None)
    else if !claim.value then Committed(db, false)
    else
      var v := (e.tenantId, e.documentVersionId);
      var versions := if v in db.versions then db.versions[v := db.versions[v].(extraction := ExtractionFailed)]
                      else db.versions;
      Enqueue(db.(processed := db.processed + {key},
                  versions := versions,
                  documents := WithStatus(db.documents, (e.tenantId, e.documentId), StatusFailed)),
              BuildContentExtractionRejected(newId, e.tenantId, e.documentId, e.documentVersionId, e.correlationId,
                                             e.eventId, error),
              now)
  }

  /** The end of `ContentExtractor.handle`: an ExtractionError raised by `complete`, whose transaction is rolled
      back, falls through to `reject`. */
  function Finish(db: Db, e: Event, outcome: Result<ExtractionStatus, ExtractError>, normalizedUri: string,
                  manifestUri: string, newId: Id, now: Time): Tx
  {
    match outcome
    case Err(error) => Reject(db, e, error, newId, now)
    case Ok(status) =>
      var tx := Complete(db, e, status, normalizedUri, manifestUri, newId, now);
      if tx.Raised? && tx.error.Some? then Reject(db, e, tx.error.value, newId, now) else tx
  }

  // ---- Exactly one effect per processed event ----

  /** The (tenant, event, consumer) whose processing stored this event; the root event has none. */
  function EffectKey(e: Event): Option<Key> {
    if e.DocumentSubmitted? || e.causationId.None? then None
    else if e.DocumentFetched? || e.DocumentFetchRejected? then
      Some((e.tenantId, e.causationId.value, DocumentFetcher))
    else
      Some((e.tenantId, e.causationId.value, ContentExtractor))
  }

  /** A key is recorded if and only if one stored event is its effect, and never two are. */
  ghost predicate ExactlyOnce(processed: set<Key>, events: seq<Event>) {
    && (forall i :: 0 <= i < |events| && EffectKey(events[i]).Some? ==> EffectKey(events[i]).value in processed)
    && (forall k :: k in processed ==> exists i :: 0 <= i < |events| && EffectKey(events[i]) == Some(k))
    && (forall i, j :: 0 <= i < j < |events| && EffectKey(events[i]).Some?
                       ==> EffectKey(events[i]) != EffectKey(events[j]))
  }

  /** What a worker's transaction does to the key table and the event log: nothing for a duplicate, else one key and
      its one effect. */
  ghost predicate OneEffect(db: Db, tx: Tx, key: Key) {
    tx.Committed? ==>
      && key in tx.db.processed
      && (!tx.applied ==> tx.db == db)
      && (tx.applied ==>
            && key !in db.processed
            && tx.db.processed == db.processed + {key}
            && |tx.db.outbox| == |db.outbox| + 1
            && tx.db.outbox[..|db.outbox|] == db.outbox
            && EffectKey(tx.db.outbox[|db.outbox|].event) == Some(key))
  }

  lemma EnqueueHasOneEffect(db: Db, after: Db, e: Event, now: Time, key: Key)
    requires key !in db.processed && after.outbox == db.outbox && after.processed == db.processed + {key}
    requires EffectKey(e) == Some(key)
    ensures OneEffect(db, Enqueue(after, e, now), key)
  {
  }

  lemma FetchHasOneEffect(db: Db, e: Event, inspection: Option<SourceInspection>, error: Option<FetchError>,
                          newId: Id, now: Time)
    ensures OneEffect(db, Fetch(db, e, inspection, error, newId, now), (e.tenantId, e.eventId, DocumentFetcher))
  {
    var key := (e.tenantId, e.eventId, DocumentFetcher);
    var tx := Fetch(db, e, inspection, error, newId, now);
    if tx.Committed? && tx.applied {
      var db1 := db.(processed := db.processed + {key});
      var found := SourceVersions(db.versions, e.tenantId, e.documentId, e.payloadUri);
      if found == {} {
        EnqueueHasOneEffect(db, db1, FetchFailure(e, UnknownSourceObject, newId), now, key);
      } else {
        forall v | v in found
          ensures OneEffect(db, FetchKnown(db1, e, v, inspection, error, newId, now), key)
        {
          FetchKnownHasOneEffect(db, e, v, inspection, error, newId, now);
        }
      }
    }
  }

  lemma FetchKnownHasOneEffect(db: Db, e: Event, v: Ref, inspection: Option<SourceInspection>,
                               error: Option<FetchError>, newId: Id, now: Time)
    requires HasUri(e) && v in db.versions && (e.tenantId, e.eventId, DocumentFetcher) !in db.processed
    ensures var key := (e.tenantId, e.eventId, DocumentFetcher);
            OneEffect(db, FetchKnown(db.(processed := db.processed + {key}), e, v, inspection, error, newId, now), key)
  {
  }

  lemma FinishHasOneEffect(db: Db, e: Event, outcome: Result<ExtractionStatus, ExtractError>, normalizedUri: string,
                           manifestUri: string, newId: Id, now: Time)
    ensures OneEffect(db, Finish(db, e, outcome, normalizedUri, manifestUri, newId, now),
                      (e.tenantId, e.eventId, ContentExtractor))
  {
  }

  lemma AppendEffect(processed: set<Key>, events: seq<Event>, key: Key, e: Event)
    requires ExactlyOnce(processed, events) && key !in processed && EffectKey(e) == Some(key)
    ensures ExactlyOnce(processed + {key}, events + [e])
  {
    var after := events + [e];
    forall k | k in processed + {key} ensures exists i :: 0 <= i < |after| && EffectKey(after[i]) == Some(k) {
      if k == key {
        assert EffectKey(after[|events|]) == Some(k);
      } else {
        var i :| 0 <= i < |events| && EffectKey(events[i]) == Some(k);
        assert EffectKey(after[i]) == Some(k);
      }
    }
  }

  lemma AppendedEvents(a: seq<Row>, b: seq<Row>)
    requires |b| == |a| + 1 && b[..|a|] == a
    ensures Events(b) == Events(a) + [b[|a|].event]
  {
    forall i | 0 <= i < |a| ensures b[i] == a[i] {
      assert b[i] == b[..|a|][i];
    }
  }

  lemma OneEffectKeepsExactlyOnce(db: Db, tx: Tx, key: Key)
    requires ExactlyOnce(db.processed, Events(db.outbox)) && OneEffect(db, tx, key) && tx.Committed?
    ensures ExactlyOnce(tx.db.processed, Events(tx.db.outbox))
  {
    if tx.applied {
      AppendedEvents(db.outbox, tx.db.outbox);
      AppendEffect(db.processed, Events(db.outbox), key, tx.db.outbox[|db.outbox|].event);
    }
  }

  // ---- Any run of transactions, on any payloads ----

  datatype Request =
    | Submit(submission: Submission)
    | FetchRecord(event: Event, inspection: Option<SourceInspection>, error: Option<FetchError>, newId: Id)
    | ExtractRecord(event: Event, outcome: Result<ExtractionStatus, ExtractError>, normalizedUri: string,
                    manifestUri: string, newId: Id)

  ghost function Run(db: Db, requests: seq<Request>): Db {
    if requests == [] then db
    else
      var before := Run(db, requests[..|requests| - 1]);
      var tx := match requests[|requests| - 1]
        case Submit(s) => CreateSubmission(before, s, 0)
        case FetchRecord(e, inspection, error, newId) => Fetch(before, e, inspection, error, newId, 0)
        case ExtractRecord(e, outcome, n, m, newId) => Finish(before, e, outcome, n, m, newId, 0);
      if tx.Committed? then tx.db else before
  }

  /** Exactly-once effect needs nothing of the payloads: it survives any sequence of submissions and of fetch and
      extract transactions, on duplicated, foreign or malformed events. */
  lemma {:induction false} ExactlyOnceInAnyRun(db: Db, requests: seq<Request>)
    requires ExactlyOnce(db.processed, Events(db.outbox))
    requires forall i :: 0 <= i < |requests| && requests[i].Submit? ==> requests[i].submission.event.DocumentSubmitted?
    ensures ExactlyOnce(Run(db, requests).processed, Events(Run(db, requests).outbox))
  {
    if requests != [] {
      var n := |requests| - 1;
      ExactlyOnceInAnyRun(db, requests[..n]);
      var before := Run(db, requests[..n]);
      match requests[n]
      case Submit(s) =>
        SubmissionKeepsExactlyOnce(before, s, 0);
      case FetchRecord(e, inspection, error, newId) =>
        var tx := Fetch(before, e, inspection, error, newId, 0);
        FetchHasOneEffect(before, e, inspection, error, newId, 0);
        if tx.Committed? {
          OneEffectKeepsExactlyOnce(before, tx, (e.tenantId, e.eventId, DocumentFetcher));
        }
      case ExtractRecord(e, outcome, u, m, newId) =>
        var tx := Finish(before, e, outcome, u, m, newId, 0);
        FinishHasOneEffect(before, e, outcome, u, m, newId, 0);
        if tx.Committed? {
          OneEffectKeepsExactlyOnce(before, tx, (e.tenantId, e.eventId, ContentExtractor));
        }
    }
  }

  lemma SubmissionKeepsExactlyOnce(db: Db, s: Submission, now: Time)
    requires ExactlyOnce(db.processed, Events(db.outbox)) && s.event.DocumentSubmitted?
    ensures var tx := CreateSubmission(db, s, now);
            tx.Committed? ==> ExactlyOnce(tx.db.processed, Events(tx.db.outbox))
  {
    var tx := CreateSubmission(db, s, now);
    if tx.Committed? {
      var events, after := Events(db.outbox), Events(tx.db.outbox);
      assert after == events + [s.event];
      forall k | k in tx.db.processed ensures exists i :: 0 <= i < |after| && EffectKey(after[i]) == Some(k) {
        var i :| 0 <= i < |events| && EffectKey(events[i]) == Some(k);
        assert EffectKey(after[i]) == Some(k);
      }
    }
  }
}
