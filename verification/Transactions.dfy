/** What the transactions of the two workers write, column by column, and when they raise instead. */
module Transactions {
  import opened Domain
  import opened Outbox
  import opened Streams
  import opened Ledger

  /** The topic that each event type goes to; a rejection goes to the dead letter topic of the worker that rejects. */
  predicate IsTopicFor(e: Event, topic: Topic) {
    && (topic.SubmittedTopic? <==> e.DocumentSubmitted?)
    && (topic.FetchedTopic? <==> e.DocumentFetched?)
    && (topic.FetcherDlq? <==> e.DocumentFetchRejected?)
    && (topic.ExtractedTopic? <==> e.ContentExtracted?)
    && (topic.ExtractorDlq? <==> e.ContentExtractionRejected?)
  }

  /** `o` is caused by `e`: a new event of the same tenant, document and chain. */
  predicate Follows(o: Event, e: Event, newId: Id) {
    && o.eventId == newId && o.causationId == Some(e.eventId) && o.correlationId == e.correlationId
    && o.tenantId == e.tenantId && o.documentId == e.documentId
  }

  /** The transaction adds one row, which nobody has claimed and which can be claimed at once, for an event caused by
      `e`, on the topic of that event. */
  ghost predicate AddsRow(db: Db, e: Event, newId: Id, now: Time, after: Db) {
    && |after.outbox| == |db.outbox| + 1 && after.outbox[..|db.outbox|] == db.outbox
    && var row := after.outbox[|db.outbox|];
       && Follows(row.event, e, newId) && IsTopicFor(row.event, row.topic)
       && row.status == Pending && row.attempts == 0 && row.availableAt == now && row.createdAt == now
       && row.lockedAt == None && row.lockedBy == None
  }

  /** The event that the transaction stored. */
  function Stored(db: Db, after: Db): Event
    requires |after.outbox| > |db.outbox|
  {
    after.outbox[|db.outbox|].event
  }

  /** Of the documents only the status of `d` changes, if it exists, and becomes `status`. */
  ghost predicate SetsStatus(db: Db, d: Ref, status: DocumentStatus, after: Db) {
    && after.documents.Keys == db.documents.Keys
    && (forall x :: x in db.documents && x != d ==> after.documents[x] == db.documents[x])
    && (d in db.documents ==>
          && after.documents[d].status == status && after.documents[d].externalId == db.documents[d].externalId
          && after.documents[d].currentVersion == db.documents[d].currentVersion)
  }

  /** Of the versions only `v` changes, and what is known of its source does not. */
  ghost predicate RewritesVersion(db: Db, v: Ref, after: Db) {
    && after.versions.Keys == db.versions.Keys && v in db.versions
    && (forall x :: x in db.versions && x != v ==> after.versions[x] == db.versions[x])
    && var was, row := db.versions[v], after.versions[v];
       && row.documentId == was.documentId && row.contentSha256 == was.contentSha256 && row.sourceUri == was.sourceUri
       && row.mimeType == was.mimeType && row.byteSize == was.byteSize && row.deleted == was.deleted
  }

  /** The event of a submission begins its own chain, or joins the one it is given. */
  lemma RootOfChain(eventId: Id, tenant: Id, document: Id, uri: string, correlationId: Option<Id>)
    ensures var o := BuildDocumentSubmitted(eventId, tenant, document, uri, correlationId);
            && o.DocumentSubmitted? && o.eventId == eventId && o.causationId.None?
            && (correlationId.None? ==> o.correlationId == eventId)
            && (correlationId.Some? ==> o.correlationId == correlationId.value)
            && o.tenantId == tenant && o.documentId == document && o.payloadUri == uri
  {
  }

  // ---- process ----

  /** The version that the submitted payload names. */
  predicate IsSource(db: Db, e: Event, v: Ref)
    requires HasUri(e)
  {
    && v in db.versions && v.0 == e.tenantId && db.versions[v].documentId == e.documentId
    && db.versions[v].sourceUri == e.payloadUri && !db.versions[v].deleted
  }

  ghost predicate OneSource(db: Db, e: Event, v: Ref)
    requires HasUri(e)
  {
    IsSource(db, e, v) && forall w :: IsSource(db, e, w) ==> w == v
  }

  ghost predicate NoSource(db: Db, e: Event)
    requires HasUri(e)
  {
    forall v :: !IsSource(db, e, v)
  }

  lemma SourcesAre(db: Db, e: Event, v: Ref)
    requires HasUri(e)
    ensures v in SourceVersions(db.versions, e.tenantId, e.documentId, e.payloadUri) <==> IsSource(db, e, v)
  {
  }

  lemma NoSourceIff(db: Db, e: Event)
    requires HasUri(e)
    ensures SourceVersions(db.versions, e.tenantId, e.documentId, e.payloadUri) == {} <==> NoSource(db, e)
  {
    forall v ensures v in SourceVersions(db.versions, e.tenantId, e.documentId, e.payloadUri) <==> IsSource(db, e, v) {
      SourcesAre(db, e, v);
    }
  }

  lemma OneSourceIs(db: Db, e: Event, v: Ref)
    requires HasUri(e) && OneSource(db, e, v)
    ensures SourceVersions(db.versions, e.tenantId, e.documentId, e.payloadUri) == {v}
  {
    forall w ensures w in SourceVersions(db.versions, e.tenantId, e.documentId, e.payloadUri) <==> w == v {
      SourcesAre(db, e, w);
    }
  }

  /** What is wrong with the document, if anything is. A digest that differs comes before everything else; the declared
      type only counts if nothing else is wrong. */
  predicate IsWrong(row: VersionRow, inspection: Option<SourceInspection>, error: Option<FetchError>,
                    wrong: FetchError)
  {
    if inspection.Some? && inspection.value.contentSha256 != row.contentSha256 then wrong == FetchChecksumMismatch
    else if error.Some? then wrong == error.value
    else row.mimeType !in {"application/pdf", "application/octet-stream"} && wrong == DeclaredMimeMismatch
  }

  ghost predicate NothingWrong(row: VersionRow, inspection: Option<SourceInspection>, error: Option<FetchError>) {
    forall wrong :: !IsWrong(row, inspection, error, wrong)
  }

  /** The event of a fetch that found nothing wrong: the inspected facts of the version. */
  predicate IsFetchedEvent(o: Event, e: Event, v: Ref, s: SourceInspection)
    requires HasUri(e)
  {
    && o.DocumentFetched? && o.documentVersionId == v.1 && o.payloadUri == e.payloadUri
    && o.detectedMimeType == s.detectedMimeType && o.contentSha256 == s.contentSha256 && o.byteSize == s.byteSize
    && o.inspectionStatus == "valid"
  }

  predicate IsFetchRejection(o: Event, e: Event, error: FetchError)
    requires HasUri(e)
  {
    o.DocumentFetchRejected? && o.fetchError == error && o.payloadUri == e.payloadUri
  }

  ghost predicate RejectsFetch(db: Db, e: Event, v: Ref, wrong: FetchError, after: Db)
    requires HasUri(e) && |after.outbox| > |db.outbox|
  {
    && IsFetchRejection(Stored(db, after), e, wrong)
    && SetsStatus(db, (e.tenantId, e.documentId), StatusFailed, after)
    && RewritesVersion(db, v, after)
    && after.versions[v] == db.versions[v].(inspection := InspectionInvalid)
  }

  ghost predicate AcceptsFetch(db: Db, e: Event, v: Ref, s: SourceInspection, after: Db)
    requires HasUri(e) && |after.outbox| > |db.outbox|
  {
    && IsFetchedEvent(Stored(db, after), e, v, s)
    && SetsStatus(db, (e.tenantId, e.documentId), StatusFetched, after)
    && RewritesVersion(db, v, after)
    && after.versions[v] == db.versions[v].(inspection := InspectionValid, detectedMimeType := Some(s.detectedMimeType))
  }

  /** What a fetch that is no duplicate writes, on any payload and with any arguments. */
  ghost predicate FetchWrites(db: Db, e: Event, inspection: Option<SourceInspection>, error: Option<FetchError>,
                              newId: Id, now: Time, after: Db)
    requires HasUri(e)
  {
    && AddsRow(db, e, newId, now, after)
    && after.tenants == db.tenants && after.processed == db.processed + {(e.tenantId, e.eventId, DocumentFetcher)}
    && (NoSource(db, e) ==>
          && IsFetchRejection(Stored(db, after), e, UnknownSourceObject)
          && after.documents == db.documents && after.versions == db.versions)
    && (forall v, wrong :: OneSource(db, e, v) && IsWrong(db.versions[v], inspection, error, wrong)
                           ==> RejectsFetch(db, e, v, wrong, after))
    && (forall v :: OneSource(db, e, v) && NothingWrong(db.versions[v], inspection, error)
                    ==> inspection.Some? && AcceptsFetch(db, e, v, inspection.value, after))
    && (NoSource(db, e) || exists v :: OneSource(db, e, v))
  }

  /** What a fetch of the one source `v` writes. */
  ghost predicate KnownWrites(db: Db, e: Event, v: Ref, inspection: Option<SourceInspection>, error: Option<FetchError>,
                              after: Db)
    requires HasUri(e) && v in db.versions && |after.outbox| > |db.outbox|
  {
    && (forall wrong :: IsWrong(db.versions[v], inspection, error, wrong) ==> RejectsFetch(db, e, v, wrong, after))
    && (NothingWrong(db.versions[v], inspection, error) ==>
          inspection.Some? && AcceptsFetch(db, e, v, inspection.value, after))
  }

  lemma RejectedFetchWrites(db: Db, db1: Db, e: Event, v: Ref, inspection: Option<SourceInspection>,
                            error: Option<FetchError>, newId: Id, now: Time)
    requires HasUri(e) && v in db.versions && db1 == db.(processed := db1.processed)
    requires FetchKnown(db1, e, v, inspection, error, newId, now).Committed?
    requires FetchVerdict(db.versions[v], inspection, error).Some?
    ensures var after := FetchKnown(db1, e, v, inspection, error, newId, now).db;
            AddsRow(db, e, newId, now, after)
            && RejectsFetch(db, e, v, FetchVerdict(db.versions[v], inspection, error).value, after)
  {
  }

  lemma AcceptedFetchWrites(db: Db, db1: Db, e: Event, v: Ref, inspection: Option<SourceInspection>,
                            error: Option<FetchError>, newId: Id, now: Time)
    requires HasUri(e) && v in db.versions && db1 == db.(processed := db1.processed)
    requires FetchKnown(db1, e, v, inspection, error, newId, now).Committed?
    requires FetchVerdict(db.versions[v], inspection, error).None?
    ensures inspection.Some?
    ensures var after := FetchKnown(db1, e, v, inspection, error, newId, now).db;
            AddsRow(db, e, newId, now, after) && AcceptsFetch(db, e, v, inspection.value, after)
  {
  }

  lemma VerdictIs(row: VersionRow, inspection: Option<SourceInspection>, error: Option<FetchError>, wrong: FetchError)
    ensures FetchVerdict(row, inspection, error) == Some(wrong) <==> IsWrong(row, inspection, error, wrong)
  {
  }

  lemma NoVerdictIs(row: VersionRow, inspection: Option<SourceInspection>, error: Option<FetchError>)
    ensures FetchVerdict(row, inspection, error).None? <==> NothingWrong(row, inspection, error)
  {
    forall wrong
      ensures FetchVerdict(row, inspection, error) == Some(wrong) <==> IsWrong(row, inspection, error, wrong)
    {
      VerdictIs(row, inspection, error, wrong);
    }
    var verdict := FetchVerdict(row, inspection, error);
    assert verdict.Some? ==> IsWrong(row, inspection, error, verdict.value);
  }

  lemma KnownFetchWrites(db: Db, db1: Db, e: Event, v: Ref, inspection: Option<SourceInspection>,
                         error: Option<FetchError>, newId: Id, now: Time)
    requires HasUri(e) && v in db.versions && db1 == db.(processed := db1.processed)
    requires FetchKnown(db1, e, v, inspection, error, newId, now).Committed?
    ensures var after := FetchKnown(db1, e, v, inspection, error, newId, now).db;
            && AddsRow(db, e, newId, now, after) && after.tenants == db.tenants && after.processed == db1.processed
            && KnownWrites(db, e, v, inspection, error, after)
  {
    var row, verdict := db.versions[v], FetchVerdict(db.versions[v], inspection, error);
    NoVerdictIs(row, inspection, error);
    if verdict.Some? {
      RejectedFetchWrites(db, db1, e, v, inspection, error, newId, now);
      forall wrong | IsWrong(row, inspection, error, wrong) ensures wrong == verdict.value {
        VerdictIs(row, inspection, error, wrong);
      }
    } else {
      AcceptedFetchWrites(db, db1, e, v, inspection, error, newId, now);
    }
  }

  lemma OneSourceWrites(db: Db, e: Event, v: Ref, inspection: Option<SourceInspection>, error: Option<FetchError>,
                        newId: Id, now: Time, after: Db)
    requires HasUri(e) && OneSource(db, e, v) && AddsRow(db, e, newId, now, after)
    requires KnownWrites(db, e, v, inspection, error, after)
    requires after.tenants == db.tenants && after.processed == db.processed + {(e.tenantId, e.eventId, DocumentFetcher)}
    ensures FetchWrites(db, e, inspection, error, newId, now, after)
  {
  }

  lemma FetchIsKnown(db: Db, e: Event, v: Ref, inspection: Option<SourceInspection>, error: Option<FetchError>,
                     newId: Id, now: Time)
    requires var tx := Fetch(db, e, inspection, error, newId, now); tx.Committed? && tx.applied
    requires HasUri(e) && OneSource(db, e, v)
    ensures var db1 := db.(processed := db.processed + {(e.tenantId, e.eventId, DocumentFetcher)});
            Fetch(db, e, inspection, error, newId, now) == FetchKnown(db1, e, v, inspection, error, newId, now)
  {
    OneSourceIs(db, e, v);
  }

  lemma UnknownIsWritten(db: Db, e: Event, inspection: Option<SourceInspection>, error: Option<FetchError>, newId: Id,
                         now: Time)
    requires var tx := Fetch(db, e, inspection, error, newId, now); tx.Committed? && tx.applied
    requires HasUri(e) && NoSource(db, e)
    ensures FetchWrites(db, e, inspection, error, newId, now, Fetch(db, e, inspection, error, newId, now).db)
  {
    NoSourceIff(db, e);
  }

  lemma FetchIsWritten(db: Db, e: Event, inspection: Option<SourceInspection>, error: Option<FetchError>, newId: Id,
                       now: Time)
    requires var tx := Fetch(db, e, inspection, error, newId, now); tx.Committed? && tx.applied
    ensures HasUri(e) && FetchWrites(db, e, inspection, error, newId, now,
                                     Fetch(db, e, inspection, error, newId, now).db)
  {
    var found := SourceVersions(db.versions, e.tenantId, e.documentId, e.payloadUri);
    NoSourceIff(db, e);
    if found == {} {
      UnknownIsWritten(db, e, inspection, error, newId, now);
    } else {
      var db1 := db.(processed := db.processed + {(e.tenantId, e.eventId, DocumentFetcher)});
      var v :| v in found;
      OnlySource(db, e, v);
      FetchIsKnown(db, e, v, inspection, error, newId, now);
      KnownFetchWrites(db, db1, e, v, inspection, error, newId, now);
      OneSourceWrites(db, e, v, inspection, error, newId, now, FetchKnown(db1, e, v, inspection, error, newId, now).db);
    }
  }

  /** The event of a fetch is one of two. */
  lemma FetchTopics(db: Db, e: Event, inspection: Option<SourceInspection>, error: Option<FetchError>, newId: Id,
                    now: Time, after: Db)
    requires HasUri(e) && FetchWrites(db, e, inspection, error, newId, now, after)
    ensures var row := after.outbox[|db.outbox|];
            || (row.event.DocumentFetched? && row.topic == FetchedTopic)
            || (row.event.DocumentFetchRejected? && row.topic == FetcherDlq)
  {
    if !NoSource(db, e) {
      var v :| OneSource(db, e, v);
      NoVerdictIs(db.versions[v], inspection, error);
      var verdict := FetchVerdict(db.versions[v], inspection, error);
      if verdict.Some? {
        VerdictIs(db.versions[v], inspection, error, verdict.value);
        assert RejectsFetch(db, e, v, verdict.value, after);
      } else {
        assert AcceptsFetch(db, e, v, inspection.value, after);
      }
    }
  }

  lemma OnlySource(db: Db, e: Event, v: Ref)
    requires HasUri(e)
    requires var found := SourceVersions(db.versions, e.tenantId, e.documentId, e.payloadUri);
             v in found && |found| == 1
    ensures OneSource(db, e, v)
  {
    var found := SourceVersions(db.versions, e.tenantId, e.documentId, e.payloadUri);
    assert |found - {v}| == 0;
    forall w | IsSource(db, e, w) ensures w == v {
      SourcesAre(db, e, w);
      assert w !in found - {v};
    }
    SourcesAre(db, e, v);
  }

  // ---- complete and reject ----

  /** The version that the fetched payload names, as it was when the event was stored. */
  predicate IsNamed(db: Db, e: Event)
    requires HasSha(e)
  {
    var v := (e.tenantId, e.documentVersionId);
    && v in db.versions && db.versions[v].documentId == e.documentId
    && db.versions[v].contentSha256 == e.contentSha256 && !db.versions[v].deleted
  }

  /** What `complete` writes; it needs a payload with a version and a digest. */
  ghost predicate CompleteWrites(db: Db, e: Event, status: ExtractionStatus, normalizedUri: string,
                                 manifestUri: string, newId: Id, now: Time, after: Db)
    requires HasSha(e)
  {
    var v := (e.tenantId, e.documentVersionId);
    && AddsRow(db, e, newId, now, after)
    && after.tenants == db.tenants && after.processed == db.processed + {(e.tenantId, e.eventId, ContentExtractor)}
    && IsNamed(db, e) && RewritesVersion(db, v, after)
    && after.versions[v] == db.versions[v].(normalizedUri := Some(normalizedUri), manifestUri := Some(manifestUri),
                                            extraction := status)
    && SetsStatus(db, (e.tenantId, e.documentId), if status.Succeeded? then StatusExtracted else StatusFailed, after)
    && var o := Stored(db, after);
       && o.ContentExtracted? && o.documentVersionId == e.documentVersionId && o.contentSha256 == e.contentSha256
       && o.normalizedUri == normalizedUri && o.manifestUri == manifestUri && o.extractionStatus == status
  }

  lemma CompleteIsWritten(db: Db, e: Event, status: ExtractionStatus, normalizedUri: string, manifestUri: string,
                          newId: Id, now: Time)
    ensures var tx := Ledger.Complete(db, e, status, normalizedUri, manifestUri, newId, now);
            && (tx.Committed? && tx.applied ==>
                  HasSha(e) && CompleteWrites(db, e, status, normalizedUri, manifestUri, newId, now, tx.db))
            && (tx == Raised(Some(UnknownDocumentVersion)) <==>
                  HasSha(e) && e.tenantId in db.tenants && (e.tenantId, e.eventId, ContentExtractor) !in db.processed
                  && !IsNamed(db, e))
  {
  }

  /** What `reject` writes, on any payload with a version, known or not. */
  ghost predicate RejectWrites(db: Db, e: Event, error: ExtractError, newId: Id, now: Time, after: Db)
    requires HasVersion(e)
  {
    var v := (e.tenantId, e.documentVersionId);
    && AddsRow(db, e, newId, now, after)
    && after.tenants == db.tenants && after.processed == db.processed + {(e.tenantId, e.eventId, ContentExtractor)}
    && (v !in db.versions ==> after.versions == db.versions)
    && (v in db.versions ==>
          && RewritesVersion(db, v, after)
          && after.versions[v] == db.versions[v].(extraction := ExtractionFailed))
    && SetsStatus(db, (e.tenantId, e.documentId), StatusFailed, after)
    && var o := Stored(db, after);
       o.ContentExtractionRejected? && o.documentVersionId == e.documentVersionId && o.extractError == error
  }

  lemma RejectIsWritten(db: Db, e: Event, error: ExtractError, newId: Id, now: Time)
    requires var tx := Ledger.Reject(db, e, error, newId, now); tx.Committed? && tx.applied
    ensures HasVersion(e) && RejectWrites(db, e, error, newId, now, Ledger.Reject(db, e, error, newId, now).db)
  {
  }

  /** The end of `handle`: a converted document is completed if its version is known, and rejected as unknown if it is
      not; a document that could not be converted is rejected with its own error. */
  lemma FinishIsWritten(db: Db, e: Event, outcome: Result<ExtractionStatus, ExtractError>, normalizedUri: string,
                        manifestUri: string, newId: Id, now: Time)
    requires HasSha(e)
    requires var tx := Ledger.Finish(db, e, outcome, normalizedUri, manifestUri, newId, now);
             tx.Committed? && tx.applied
    ensures var after := Ledger.Finish(db, e, outcome, normalizedUri, manifestUri, newId, now).db;
            match outcome
            case Err(error) => RejectWrites(db, e, error, newId, now, after)
            case Ok(status) =>
              if IsNamed(db, e) then CompleteWrites(db, e, status, normalizedUri, manifestUri, newId, now, after)
              else RejectWrites(db, e, UnknownDocumentVersion, newId, now, after)
  {
    if outcome.Ok? {
      CompleteIsWritten(db, e, outcome.value, normalizedUri, manifestUri, newId, now);
      if Ledger.Complete(db, e, outcome.value, normalizedUri, manifestUri, newId, now).Raised? {
        RejectIsWritten(db, e, UnknownDocumentVersion, newId, now);
      }
    } else {
      RejectIsWritten(db, e, outcome.error, newId, now);
    }
  }

  // ---- When they raise ----

  /** The outbox holds an event of this tenant and id. */
  predicate IdTaken(db: Db, tenant: Id, eventId: Id) {
    exists i :: 0 <= i < |db.outbox| && db.outbox[i].event.tenantId == tenant && db.outbox[i].event.eventId == eventId
  }

  /** A fetch of a payload with a URI commits if and only if it is a duplicate, or its tenant exists, the new event id
      is free, and its source is unknown, or one and with something to say about it. */
  lemma FetchCommitsIff(db: Db, e: Event, inspection: Option<SourceInspection>, error: Option<FetchError>, newId: Id,
                        now: Time)
    requires e.DocumentSubmitted? || e.DocumentFetched? || e.DocumentFetchRejected?
    ensures var key := (e.tenantId, e.eventId, DocumentFetcher);
            Fetch(db, e, inspection, error, newId, now).Committed? <==>
              || key in db.processed
              || (&& e.tenantId in db.tenants && !IdTaken(db, e.tenantId, newId)
                  && (NoSource(db, e)
                      || exists v :: OneSource(db, e, v)
                                     && (inspection.Some? || !NothingWrong(db.versions[v], inspection, error))))
  {
    var key := (e.tenantId, e.eventId, DocumentFetcher);
    var found := SourceVersions(db.versions, e.tenantId, e.documentId, e.payloadUri);
    NoSourceIff(db, e);
    if key !in db.processed && found != {} {
      if |found| == 1 {
        var v :| v in found;
        OnlySource(db, e, v);
        OneSourceIs(db, e, v);
        KnownFetchCommits(db, e, v, inspection, error, newId, now);
      } else if v :| OneSource(db, e, v) {
        OneSourceIs(db, e, v);
        assert false;
      }
    }
  }

  lemma KnownFetchCommits(db: Db, e: Event, v: Ref, inspection: Option<SourceInspection>, error: Option<FetchError>,
                          newId: Id, now: Time)
    requires HasUri(e) && v in db.versions
    ensures var db1 := db.(processed := db.processed + {(e.tenantId, e.eventId, DocumentFetcher)});
            FetchKnown(db1, e, v, inspection, error, newId, now).Committed?
            <==> !IdTaken(db, e.tenantId, newId)
                 && (inspection.Some? || !NothingWrong(db.versions[v], inspection, error))
  {
    NoVerdictIs(db.versions[v], inspection, error);
  }

  /** The two transactions of the extractor commit, on a payload that has what they read, unless the tenant is unknown,
      the new event id is taken, or `complete` finds the version unknown. */
  lemma CompleteCommitsIff(db: Db, e: Event, status: ExtractionStatus, normalizedUri: string, manifestUri: string,
                           error: ExtractError, newId: Id, now: Time)
    ensures var key := (e.tenantId, e.eventId, ContentExtractor);
            var free := e.tenantId in db.tenants && !IdTaken(db, e.tenantId, newId);
            && (e.DocumentFetched? || e.ContentExtracted? ==>
                  (Ledger.Complete(db, e, status, normalizedUri, manifestUri, newId, now).Committed?
                   <==> key in db.processed || (free && IsNamed(db, e))))
            && (e.DocumentFetched? || e.ContentExtracted? || e.ContentExtractionRejected? ==>
                  (Ledger.Reject(db, e, error, newId, now).Committed? <==> key in db.processed || free))
  {
  }

  /** So the end of `handle` does not depend on whether the version is known: an ExtractionError of `complete` is never
      the end of it. */
  lemma FinishCommitsIff(db: Db, e: Event, outcome: Result<ExtractionStatus, ExtractError>, normalizedUri: string,
                         manifestUri: string, newId: Id, now: Time)
    requires e.DocumentFetched?
    ensures Ledger.Finish(db, e, outcome, normalizedUri, manifestUri, newId, now).Committed? <==>
              || (e.tenantId, e.eventId, ContentExtractor) in db.processed
              || (e.tenantId in db.tenants && !IdTaken(db, e.tenantId, newId))
  {
    var error := if outcome.Err? then outcome.error else UnknownDocumentVersion;
    var status := if outcome.Ok? then outcome.value else Succeeded;
    CompleteIsWritten(db, e, status, normalizedUri, manifestUri, newId, now);
    CompleteCommitsIff(db, e, status, normalizedUri, manifestUri, error, newId, now);
  }
}
