/** The repositories: statements run one after the other on the tables, and an exception rolls all of them back. Besides
    the constraints, any statement or the commit may fail; that counts as a fault. */
module Repository {
  import opened Domain
  import opened Outbox
  import opened Streams
  import opened Ledger
  import opened Transactions

  class Database {
    const tenants: set<Id>
    var documents: map<Ref, DocumentRow>
    var versions: map<Ref, VersionRow>
    var processed: set<Key>
    var outbox: seq<Row>
    ghost var faults: nat

    constructor (tenants: set<Id>)
      ensures Contents() == Db(tenants, map[], map[], {}, [])
    {
      this.tenants := tenants;
      documents, versions, processed, outbox, faults := map[], map[], {}, [], 0;
    }

    function Contents(): Db
      reads this
    {
      Db(tenants, documents, versions, processed, outbox)
    }

    /** Rolls the transaction back. */
    method Restore(db: Db)
      requires db.tenants == tenants
      modifies this`documents, this`versions, this`processed, this`outbox
      ensures Contents() == db
    {
      documents, versions, processed, outbox := db.documents, db.versions, db.processed, db.outbox;
    }

    /** The end of a transaction that began with `before`: it commits, or fails and is rolled back. */
    method Ends(before: Db) returns (ok: bool)
      requires before.tenants == tenants
      modifies this
      ensures Contents() == if ok then old(Contents()) else before
      ensures faults == old(faults) + if ok then 0 else 1
    {
      ok :| true;
      if !ok {
        Restore(before);
        faults := faults + 1;
      }
    }

    method SetStatus(doc: Ref, status: DocumentStatus)
      modifies this`documents
      ensures documents == WithStatus(old(documents), doc, status)
    {
      if doc in documents {
        documents := documents[doc := documents[doc].(status := status)];
      }
    }

    method InsertEvent(event: Event, now: Time) returns (stored: bool)
      modifies this`outbox
      ensures stored <==> !EventStored(old(outbox), event.tenantId, event.eventId)
      ensures outbox == if stored then old(outbox) + [NewRow(event, TopicOf(event), now)] else old(outbox)
    {
      stored := !EventStored(outbox, event.tenantId, event.eventId);
      if stored {
        outbox := outbox + [NewRow(event, TopicOf(event), now)];
      }
    }

    /** The row of the document, which does not name a version yet. */
    method InsertDocument(s: Submission) returns (stored: bool)
      modifies this`documents
      ensures stored <==>
                && s.tenantId in tenants && (forall d :: d in old(documents) ==> d.1 != s.documentId)
                && (forall d :: d in old(documents) && d.0 == s.tenantId
                                ==> old(documents)[d].externalId != s.externalId)
      ensures documents == if stored
                           then old(documents)[(s.tenantId, s.documentId) :=
                                                 DocumentRow(s.externalId, StatusSubmitted, None)]
                           else old(documents)
    {
      if s.tenantId !in tenants || (exists d :: d in documents && d.1 == s.documentId)
         || (exists d :: d in documents && d.0 == s.tenantId && documents[d].externalId == s.externalId) {
        return false;
      }
      documents := documents[(s.tenantId, s.documentId) := DocumentRow(s.externalId, StatusSubmitted, None)];
      return true;
    }

    /** The row of the version, and the document's reference to it. */
    method InsertVersion(s: Submission) returns (stored: bool)
      requires (s.tenantId, s.documentId) in documents
      modifies this`documents, this`versions
      ensures stored <==>
                && (forall v :: v in old(versions) ==> v.1 != s.versionId)
                && (forall v :: v in old(versions) && v.0 == s.tenantId
                                ==> old(versions)[v].contentSha256 != s.contentSha256)
      ensures !stored ==> versions == old(versions) && documents == old(documents)
      ensures stored ==>
                var doc := (s.tenantId, s.documentId);
                && versions == old(versions)[(s.tenantId, s.versionId) := NewVersion(s)]
                && documents == old(documents)[doc := old(documents)[doc].(currentVersion := Some(s.versionId))]
    {
      if (exists v :: v in versions && v.1 == s.versionId)
         || (exists v :: v in versions && v.0 == s.tenantId && versions[v].contentSha256 == s.contentSha256) {
        return false;
      }
      var doc := (s.tenantId, s.documentId);
      versions := versions[(s.tenantId, s.versionId) := NewVersion(s)];
      documents := documents[doc := documents[doc].(currentVersion := Some(s.versionId))];
      return true;
    }

    method SubmissionStatements(s: Submission, now: Time) returns (stored: bool)
      modifies this`documents, this`versions, this`processed, this`outbox
      ensures var tx := Ledger.CreateSubmission(old(Contents()), s, now);
              stored == tx.Committed? && Contents() == if tx.Committed? then tx.db else old(Contents())
    {
      var before := Contents();
      stored := InsertDocument(s);
      if stored {
        stored := InsertVersion(s);
      }
      if stored {
        stored := InsertEvent(s.event, now);
      }
      if !stored {
        Restore(before);
      }
    }

    /** `DocumentSubmissionRepository.create_submission`; Some(false) is the IntegrityError, None any other failure. */
    method CreateSubmission(s: Submission, now: Time) returns (stored: Option<bool>)
      modifies this
      ensures faults == old(faults) + if stored.Some? then 0 else 1
      ensures stored.None? ==> Contents() == old(Contents())
      ensures stored.Some? ==>
                var tx := Ledger.CreateSubmission(old(Contents()), s, now);
                stored.value == tx.Committed? && Contents() == if tx.Committed? then tx.db else old(Contents())
    {
      var before := Contents();
      var done := SubmissionStatements(s, now);
      var ok := Ends(before);
      return if ok then Some(done) else None;
    }

    method ProcessStatements(e: Event, inspection: Option<SourceInspection>, error: Option<FetchError>, newId: Id,
                             now: Time)
      returns (applied: Option<bool>)
      modifies this`documents, this`versions, this`processed, this`outbox
      ensures var tx := Fetch(old(Contents()), e, inspection, error, newId, now);
              && applied == (if tx.Committed? then Some(tx.applied) else None)
              && Contents() == (if tx.Committed? then tx.db else old(Contents()))
    {
      var before := Contents();
      if !HasUri(e) {
        return None;
      }
      var key := (e.tenantId, e.eventId, DocumentFetcher);
      if key in processed {
        return Some(false);
      }
      if e.tenantId !in tenants {
        return None;
      }
      processed := processed + {key};
      var found := SourceVersions(versions, e.tenantId, e.documentId, e.payloadUri);
      var stored: bool;
      if found == {} {
        stored := InsertEvent(FetchFailure(e, UnknownSourceObject, newId), now);
      } else if |found| > 1 {
        stored := false;
      } else {
        var v :| v in found;
        OnlyMember(found, v);
        stored := ProcessKnown(e, v, inspection, error, newId, now);
      }
      if !stored {
        Restore(before);
        return None;
      }
      return Some(true);
    }

    method ProcessKnown(e: Event, v: Ref, inspection: Option<SourceInspection>, error: Option<FetchError>, newId: Id,
                        now: Time)
      returns (stored: bool)
      requires HasUri(e) && v in versions
      modifies this`documents, this`versions, this`processed, this`outbox
      ensures var tx := FetchKnown(old(Contents()), e, v, inspection, error, newId, now);
              stored == tx.Committed? && (stored ==> Contents() == tx.db)
    {
      var doc := (e.tenantId, e.documentId);
      var version := versions[v];
      var failure := error;
      if inspection.Some? && inspection.value.contentSha256 != version.contentSha256 {
        failure := Some(FetchChecksumMismatch);
      }
      if failure.None? && version.mimeType !in [PDF_MIME, OCTET_MIME] {
        failure := Some(DeclaredMimeMismatch);
      }
      if failure.Some? {
        versions := versions[v := version.(inspection := InspectionInvalid)];
        SetStatus(doc, StatusFailed);
        stored := InsertEvent(FetchFailure(e, failure.value, newId), now);
        return;
      }
      if inspection.None? {
        return false;
      }
      var s := inspection.value;
      versions := versions[v := version.(detectedMimeType := Some(s.detectedMimeType), inspection := InspectionValid)];
      SetStatus(doc, StatusFetched);
      var event := BuildDocumentFetched(newId, e.tenantId, e.documentId, v.1, e.payloadUri, s.detectedMimeType,
                                        s.contentSha256, s.byteSize, e.correlationId, e.eventId);
      stored := InsertEvent(event, now);
    }

    /** `DocumentFetcherRepository.process`; None stands for an exception. */
    method Process(e: Event, inspection: Option<SourceInspection>, error: Option<FetchError>, newId: Id, now: Time)
      returns (applied: Option<bool>)
      modifies this
      ensures old(faults) <= faults <= old(faults) + 1
      ensures faults > old(faults) ==> applied.None? && Contents() == old(Contents())
      ensures faults == old(faults) ==>
                var tx := Fetch(old(Contents()), e, inspection, error, newId, now);
                && applied == (if tx.Committed? then Some(tx.applied) else None)
                && Contents() == (if tx.Committed? then tx.db else old(Contents()))
      ensures applied == Some(true) ==>
                && HasUri(e) && FetchWrites(old(Contents()), e, inspection, error, newId, now, Contents())
                && var row := outbox[|old(outbox)|];
                   || (row.event.DocumentFetched? && row.topic == FetchedTopic)
                   || (row.event.DocumentFetchRejected? && row.topic == FetcherDlq)
    {
      var before := Contents();
      applied := ProcessStatements(e, inspection, error, newId, now);
      if applied == Some(true) {
        FetchIsWritten(before, e, inspection, error, newId, now);
        FetchTopics(before, e, inspection, error, newId, now, Contents());
      }
      var ok := Ends(before);
      if !ok {
        applied := None;
      }
    }

    method CompleteStatements(e: Event, status: ExtractionStatus, normalizedUri: string, manifestUri: string,
                              newId: Id, now: Time)
      returns (r: Result<bool, Option<ExtractError>>)
      modifies this`documents, this`versions, this`processed, this`outbox
      ensures var tx := Ledger.Complete(old(Contents()), e, status, normalizedUri, manifestUri, newId, now);
              && r == (if tx.Committed? then Ok(tx.applied) else Err(tx.error))
              && Contents() == (if tx.Committed? then tx.db else old(Contents()))
    {
      var before := Contents();
      if !HasVersion(e) {
        return Err(None);
      }
      var key := (e.tenantId, e.eventId, ContentExtractor);
      if key in processed {
        return Ok(false);
      }
      if e.tenantId !in tenants {
        return Err(None);
      }
      processed := processed + {key};
      if !HasSha(e) {
        Restore(before);
        return Err(None);
      }
      if !NamesLiveVersion(Contents(), e) {
        Restore(before);
        return Err(Some(UnknownDocumentVersion));
      }
      var v := (e.tenantId, e.documentVersionId);
      versions := versions[v := versions[v].(normalizedUri := Some(normalizedUri), manifestUri := Some(manifestUri),
                                             extraction := status)];
      SetStatus((e.tenantId, e.documentId), if status == Succeeded then StatusExtracted else StatusFailed);
      var event := BuildContentExtracted(newId, e.tenantId, e.documentId, e.documentVersionId, e.contentSha256,
                                         normalizedUri, manifestUri, status, e.correlationId, e.eventId);
      var stored := InsertEvent(event, now);
      if !stored {
        Restore(before);
        return Err(None);
      }
      return Ok(true);
    }

    /** `ContentExtractorRepository.complete`; Err carries the ExtractionError, if the exception is one. */
    method Complete(e: Event, status: ExtractionStatus, normalizedUri: string, manifestUri: string, newId: Id,
                    now: Time)
      returns (r: Result<bool, Option<ExtractError>>)
      modifies this
      ensures old(faults) <= faults <= old(faults) + 1
      ensures faults > old(faults) ==> r == Err(None) && Contents() == old(Contents())
      ensures faults == old(faults) ==>
                var tx := Ledger.Complete(old(Contents()), e, status, normalizedUri, manifestUri, newId, now);
                && r == (if tx.Committed? then Ok(tx.applied) else Err(tx.error))
                && Contents() == (if tx.Committed? then tx.db else old(Contents()))
      ensures r == Ok(true) ==>
                && HasSha(e) && CompleteWrites(old(Contents()), e, status, normalizedUri, manifestUri, newId, now,
                                               Contents())
                && outbox[|old(outbox)|].event.ContentExtracted? && outbox[|old(outbox)|].topic == ExtractedTopic
    {
      var before := Contents();
      CompleteIsWritten(before, e, status, normalizedUri, manifestUri, newId, now);
      r := CompleteStatements(e, status, normalizedUri, manifestUri, newId, now);
      var ok := Ends(before);
      if !ok {
        r := Err(None);
      }
    }

    method RejectStatements(e: Event, error: ExtractError, newId: Id, now: Time) returns (applied: Option<bool>)
      modifies this`documents, this`versions, this`processed, this`outbox
      ensures var tx := Ledger.Reject(old(Contents()), e, error, newId, now);
              && applied == (if tx.Committed? then Some(tx.applied) else None)
              && Contents() == (if tx.Committed? then tx.db else old(Contents()))
    {
      var before := Contents();
      if !HasVersion(e) {
        return None;
      }
      var key := (e.tenantId, e.eventId, ContentExtractor);
      if key in processed {
        return Some(false);
      }
      if e.tenantId !in tenants {
        return None;
      }
      processed := processed + {key};
      var v := (e.tenantId, e.documentVersionId);
      if v in versions {
        versions := versions[v := versions[v].(extraction := ExtractionFailed)];
      }
      SetStatus((e.tenantId, e.documentId), StatusFailed);
      var stored := InsertEvent(BuildContentExtractionRejected(newId, e.tenantId, e.documentId, e.documentVersionId,
                                                               e.correlationId, e.eventId, error), now);
      if !stored {
        Restore(before);
        return None;
      }
      return Some(true);
    }

    /** `ContentExtractorRepository.reject`; None stands for an exception. */
    method Reject(e: Event, error: ExtractError, newId: Id, now: Time) returns (applied: Option<bool>)
      modifies this
      ensures old(faults) <= faults <= old(faults) + 1
      ensures faults > old(faults) ==> applied.None? && Contents() == old(Contents())
      ensures faults == old(faults) ==>
                var tx := Ledger.Reject(old(Contents()), e, error, newId, now);
                && applied == (if tx.Committed? then Some(tx.applied) else None)
                && Contents() == (if tx.Committed? then tx.db else old(Contents()))
      ensures applied == Some(true) ==>
                && HasVersion(e) && RejectWrites(old(Contents()), e, error, newId, now, Contents())
                && outbox[|old(outbox)|].event.ContentExtractionRejected?
                && outbox[|old(outbox)|].topic == ExtractorDlq
    {
      var before := Contents();
      applied := RejectStatements(e, error, newId, now);
      if applied == Some(true) {
        RejectIsWritten(before, e, error, newId, now);
      }
      var ok := Ends(before);
      if !ok {
        applied := None;
      }
    }

    /** The end of `ContentExtractor.handle`: an ExtractionError, also one raised by `complete`, goes to `reject`; any
        other failure of `complete` does not. */
    method Finish(e: Event, outcome: Result<ExtractionStatus, ExtractError>, normalizedUri: string,
                  manifestUri: string, newId: Id, now: Time)
      returns (applied: Option<bool>)
      modifies this
      ensures old(faults) <= faults <= old(faults) + 1
      ensures faults > old(faults) ==> applied.None? && Contents() == old(Contents())
      ensures faults == old(faults) ==>
                var tx := Ledger.Finish(old(Contents()), e, outcome, normalizedUri, manifestUri, newId, now);
                && applied == (if tx.Committed? then Some(tx.applied) else None)
                && Contents() == (if tx.Committed? then tx.db else old(Contents()))
      ensures applied == Some(true) && outcome.Err? ==>
                HasVersion(e) && RejectWrites(old(Contents()), e, outcome.error, newId, now, Contents())
      ensures applied == Some(true) && outcome.Ok? ==>
                && HasSha(e)
                && if IsNamed(old(Contents()), e)
                   then CompleteWrites(old(Contents()), e, outcome.value, normalizedUri, manifestUri, newId, now,
                                       Contents())
                   else RejectWrites(old(Contents()), e, UnknownDocumentVersion, newId, now, Contents())
    {
      ghost var before := Contents();
      if outcome.Ok? {
        CompleteIsWritten(before, e, outcome.value, normalizedUri, manifestUri, newId, now);
      }
      if outcome.Err? {
        applied := Reject(e, outcome.error, newId, now);
        return;
      }
      var r := Complete(e, outcome.value, normalizedUri, manifestUri, newId, now);
      if r.Ok? {
        applied := Some(r.value);
      } else if r.error.Some? {
        applied := Reject(e, r.error.value, newId, now);
      } else {
        applied := None;
      }
    }
  }

  lemma OnlyMember<T>(s: set<T>, x: T)
    requires x in s && |s| == 1
    ensures forall y :: y in s ==> y == x
  {
    assert |s - {x}| == 0;
    forall y | y in s ensures y == x {
      assert y !in s - {x};
    }
  }
}
