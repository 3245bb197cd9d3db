/** `POST /v1/documents`: upload, put, commit, and the compensating delete. */
module Submission {
  import opened Domain
  import opened Outbox
  import opened Ledger
  import opened SourceKeys
  import opened Streams
  import opened Stores
  import opened Repository
  import opened Pipeline

  datatype Response =
    | Created(uri: string)      // 201
    | MissingFilename           // 422
    | UploadTooLarge            // 413
    | StorageUnavailable        // 503
    | Conflict                  // 409
    | InternalError             // 500

  // The form of the request, and the ids that `uuid4` draws for it.
  datatype Form = Form(tenantId: Id, filename: string, contentType: Option<string>, sourceExternalId: Option<string>,
                       documentId: Id, versionId: Id, eventId: Id)

  /** The request as the pipeline knows it once its body was received. */
  function CallOf(f: Form, content: Bytes): Call {
    Call(f.tenantId, f.documentId, f.versionId, f.eventId, f.filename, OrElse(f.sourceExternalId, f.documentId),
         OrElse(f.contentType, OCTET_MIME), content, Uploading)
  }

  /** The external id that a form asks for: the given one, unless none or an empty one is given. */
  predicate AsksFor(f: Form, externalId: string) {
    if f.sourceExternalId.Some? && |f.sourceExternalId.value| > 0 then externalId == f.sourceExternalId.value
    else externalId == f.documentId
  }

  /** What the tables hold that another submission of this form and content would violate. */
  ghost predicate Taken(db: Db, f: Form, sha: string) {
    || f.tenantId !in db.tenants
    || (exists d :: d in db.documents && d.1 == f.documentId)
    || (exists d :: d in db.documents && d.0 == f.tenantId && AsksFor(f, db.documents[d].externalId))
    || (exists v :: v in db.versions && v.1 == f.versionId)
    || (exists v :: v in db.versions && v.0 == f.tenantId && db.versions[v].contentSha256 == sha)
    || (exists i :: 0 <= i < |db.outbox| && db.outbox[i].event.tenantId == f.tenantId
                    && db.outbox[i].event.eventId == f.eventId)
  }

  /** The rows of an accepted form: one new document with one version and one event, each column as the form, the body
      and the stored object say. */
  ghost predicate IsAccepted(db: Db, f: Form, size: nat, sha: string, uri: string, now: Time, after: Db) {
    var d, v := (f.tenantId, f.documentId), (f.tenantId, f.versionId);
    && after.tenants == db.tenants && after.processed == db.processed
    && d !in db.documents && after.documents.Keys == db.documents.Keys + {d}
    && (forall x :: x in db.documents ==> after.documents[x] == db.documents[x])
    && AsksFor(f, after.documents[d].externalId)
    && after.documents[d].status == StatusSubmitted && after.documents[d].currentVersion == Some(f.versionId)
    && v !in db.versions && after.versions.Keys == db.versions.Keys + {v}
    && (forall x :: x in db.versions ==> after.versions[x] == db.versions[x])
    && IsNewRow(after.versions[v], f, size, sha, uri)
    && |after.outbox| == |db.outbox| + 1 && after.outbox[..|db.outbox|] == db.outbox
    && after.outbox[|db.outbox|]
       == Row(DocumentSubmitted(f.eventId, f.eventId, None, f.tenantId, f.documentId, uri), SubmittedTopic, Pending, 0,
              now, now, None, None)
  }

  /** A version as nobody has looked at it yet. */
  predicate IsNewRow(v: VersionRow, f: Form, size: nat, sha: string, uri: string) {
    && v.documentId == f.documentId && v.contentSha256 == sha && v.sourceUri == uri && v.byteSize == size
    && (if f.contentType.Some? && |f.contentType.value| > 0 then v.mimeType == f.contentType.value
        else v.mimeType == "application/octet-stream")
    && v.detectedMimeType == None && v.inspection == InspectionPending && v.extraction == ExtractionPending
    && v.normalizedUri == None && v.manifestUri == None && !v.deleted
  }

  lemma AskedFor(f: Form, externalId: string)
    ensures AsksFor(f, externalId) <==> externalId == OrElse(f.sourceExternalId, f.documentId)
  {
  }

  /** A form is refused if and only if the tables hold what it would violate, and else has its new rows. */
  lemma AcceptedIff(config: Config, f: Form, content: Bytes, db: Db, now: Time)
    ensures var tx := CreateSubmission(db, SubmissionFor(config, CallOf(f, content)), now);
            && (tx.Committed? <==> !Taken(db, f, config.sha(content)))
            && (tx.Committed? ==> IsAccepted(db, f, |content|, config.sha(content),
                                             "s3://" + config.bucket + "/"
                                             + SourceKey(f.tenantId, f.documentId, f.filename), now, tx.db))
  {
    var sub := SubmissionFor(config, CallOf(f, content));
    assert sub.externalId == OrElse(f.sourceExternalId, f.documentId);
    assert sub.mimeType == OrElse(f.contentType, OCTET_MIME);
    forall d | d in db.documents
      ensures AsksFor(f, db.documents[d].externalId) <==> db.documents[d].externalId == sub.externalId
    {
      AskedFor(f, db.documents[d].externalId);
    }
    AskedFor(f, sub.externalId);
  }

  class SubmissionApi {
    const config: Config
    const store: SourceStore
    const database: Database

    constructor (config: Config, store: SourceStore, database: Database)
      requires store.bucket == config.bucket
      ensures this.config == config && this.store == store && this.database == database && Valid()
    {
      this.config, this.store, this.database := config, store, database;
    }

    predicate Valid() {
      store.bucket == config.bucket
    }

    /** The tables change if and only if the answer is 201, and then the object is stored; no object but that of the
        request's own key is ever touched; after 409 it is gone, after 503 and 500 it may be left as an orphan. Unless
        a stream, a store or the database fails, a request that gets so far is answered 201 if the constraints admit it,
        and 409 if they do not. An accepted form has its rows as the form says; a form is refused with 409 if and only
        if the tables hold what it would violate. A failed put is a 503, a body or a database that fails a 500; what is
        refused or fails after the put is deleted again, unless the delete fails too. */
    method SubmitDocument(form: Form, file: ByteStream, now: Time) returns (r: Response)
      requires Valid() && file.Valid() && file.pos == 0
      modifies file, store, database
      ensures r.MissingFilename? <==> form.filename == ""
      ensures r.UploadTooLarge? ==> form.filename != "" && |file.content| > config.apiMax
      ensures form.filename != "" && |file.content| > config.apiMax ==>
                r.UploadTooLarge? || (r.InternalError? && file.faults > old(file.faults))
      ensures var call := CallOf(form, file.content);
              var tx := CreateSubmission(old(database.Contents()), SubmissionFor(config, call), now);
              && (r.Created? ==> tx.Committed? && database.Contents() == tx.db
                                 && r.uri == ObjectUri(config.bucket, KeyFor(call))
                                 && store.objects == old(store.objects)[KeyFor(call) := file.content])
              && (!r.Created? ==> database.Contents() == old(database.Contents()))
              && (r.Conflict? ==> tx.Raised? && store.objects == old(store.objects) - {KeyFor(call)})
              && (store.objects == old(store.objects) || store.objects == old(store.objects) - {KeyFor(call)}
                  || store.objects == old(store.objects)[KeyFor(call) := file.content])
      ensures r.MissingFilename? || r.UploadTooLarge? ==> store.objects == old(store.objects)
      ensures file.faults == old(file.faults) && store.faults == old(store.faults)
              && database.faults == old(database.faults) && !r.MissingFilename? && !r.UploadTooLarge? ==>
                var call := CallOf(form, file.content);
                r == if CreateSubmission(old(database.Contents()), SubmissionFor(config, call), now).Committed?
                     then Created(ObjectUri(config.bucket, KeyFor(call))) else Conflict
      ensures r.Created? ==>
                && IsAccepted(old(database.Contents()), form, |file.content|, config.sha(file.content), r.uri, now,
                              database.Contents())
                && r.uri == "s3://" + config.bucket + "/" + SourceKey(form.tenantId, form.documentId, form.filename)
      ensures r.Conflict? ==> Taken(old(database.Contents()), form, config.sha(file.content))
      ensures file.faults == old(file.faults) && store.faults == old(store.faults)
              && database.faults == old(database.faults) && !r.MissingFilename? && !r.UploadTooLarge? ==>
                (r.Conflict? <==> Taken(old(database.Contents()), form, config.sha(file.content)))
      ensures r.StorageUnavailable? <==> store.failedPuts > old(store.failedPuts)
      ensures file.faults > old(file.faults) ==> r.InternalError? && store.objects == old(store.objects)
      ensures database.faults > old(database.faults) ==> r.InternalError?
      ensures r.InternalError? ==> file.faults > old(file.faults) || database.faults > old(database.faults)
                                   || store.faults > old(store.faults)
      ensures (r.Conflict? || r.InternalError?) && file.faults == old(file.faults)
              && store.faults == old(store.faults) ==>
                store.objects == old(store.objects) - {SourceKey(form.tenantId, form.documentId, form.filename)}
    {
      AcceptedIff(config, form, file.content, database.Contents(), now);
      if form.filename == "" {
        return MissingFilename;
      }
      var buffered := ReceiveUpload(file, config.apiMax);
      if buffered.UploadRaised? {
        return InternalError;
      }
      if buffered.LimitExceeded? {
        return UploadTooLarge;
      }
      var key := SourceKey(form.tenantId, form.documentId, form.filename);
      var uri := store.Put(key, buffered.bytes);
      if uri.None? {
        return StorageUnavailable;
      }
      var event := BuildDocumentSubmitted(form.eventId, form.tenantId, form.documentId, uri.value, None);
      var sub := Ledger.Submission(form.tenantId, form.documentId, form.versionId,
                                   OrElse(form.sourceExternalId, form.documentId), config.sha(buffered.bytes),
                                   uri.value, OrElse(form.contentType, OCTET_MIME), |buffered.bytes|, event);
      var stored := database.CreateSubmission(sub, now);
      if stored == Some(true) {
        return Created(uri.value);
      }
      var deleted := store.Delete(key);
      return if deleted && stored.Some? then Conflict else InternalError;
    }
  }
}
