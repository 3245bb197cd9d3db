/** The two handlers and the fetcher's main loop, on the stores and the tables they share. */
module Workers {
  import opened Domain
  import opened Ledger
  import opened SourceKeys
  import opened Streams
  import opened Stores
  import opened Repository
  import opened Pipeline
  import Consumption

  class DocumentFetcher {
    const config: Config
    const store: SourceStore
    const database: Database

    constructor (config: Config, store: SourceStore, database: Database)
      requires store.bucket == config.bucket
      ensures this.config == config && this.store == store && this.database == database && Valid()
    {
      this.config, this.store, this.database := config, store, database;
    }

    predicate Valid() {
      store.bucket == config.bucket
    }

    ghost predicate Raises(e: Event, first: nat, db: Db, newId: Id, now: Time)
      reads store
    {
      var content := if e.DocumentSubmitted? then ReadSource(config, store.objects, e.payloadUri) else Some([]);
      content.Some? ==>
        && (e.DocumentSubmitted? ==> FirstChunk(content.value, first, config.fetcherMax))
        && var inputs := FetchInputsFor(config, store.objects, e, first);
           inputs.Some? ==> Fetch(db, e, inputs.value.inspection, inputs.value.error, newId, now).Raised?
    }

    /** `_object_store.get` and `inspect_pdf`. */
    method Inspect(uri: string) returns (r: Inspection, ghost first: nat)
      requires Valid()
      modifies store`faults
      ensures ReadSource(config, store.objects, uri).None? ==> r.InspectionRaised?
      ensures ReadSource(config, store.objects, uri).Some?
              && (store.faults == old(store.faults) || !r.InspectionRaised?) ==>
                var content := ReadSource(config, store.objects, uri).value;
                && FirstChunk(content, first, config.fetcherMax)
                && r == Streams.Inspect(content, first, config.fetcherMax, config.sha, config.parse)
    {
      r, first := InspectionRaised, 0;
      var body := store.Get(uri);
      if body.Some? {
        r := InspectPdf(body.value, None, config.fetcherMax, config.sha, config.parse);
        if body.value.faults == 0 {
          first := body.value.lengths[0];
        } else {
          store.faults := store.faults + 1;
        }
      }
    }

    /** `handle`: the transaction for what the bytes are, or an exception and nothing. Unless the store or the database
        fails, it raises only for a source that cannot be read, a parser crash, or a transaction that raises. */
    method Handle(e: Event, newId: Id, now: Time) returns (applied: Option<bool>, ghost first: nat)
      requires Valid()
      modifies database, store`faults
      ensures applied.None? ==> database.Contents() == old(database.Contents())
      ensures applied.None? && store.faults == old(store.faults) && database.faults == old(database.faults) ==>
                Raises(e, first, old(database.Contents()), newId, now)
      ensures applied.Some? ==>
                var inputs := FetchInputsFor(config, store.objects, e, first);
                && inputs.Some?
                && Fetch(old(database.Contents()), e, inputs.value.inspection, inputs.value.error, newId, now)
                   == Committed(database.Contents(), applied.value)
    {
      first := 0;
      if !e.DocumentSubmitted? {
        applied := database.Process(e, None, Some(UnexpectedSubmission), newId, now);
        return;
      }
      var r;
      r, first := Inspect(e.payloadUri);
      match r {
        case InspectionRaised => applied := None;
        case Invalid(error) => applied := database.Process(e, None, Some(error), newId, now);
        case Inspected(source) => applied := database.Process(e, Some(source), None, newId, now);
      }
    }
  }

  /** One consumer process of the fetcher: poll, handle, commit. The log is what the broker shows it in its lifetime. */
  class FetcherLoop {
    const fetcher: DocumentFetcher
    const lanes: seq<Consumption.Lane>
    const payloads: seq<Event>
    var loop: Consumption.Loop

    constructor (fetcher: DocumentFetcher, lanes: seq<Consumption.Lane>, payloads: seq<Event>, committed: map<nat, nat>)
      requires fetcher.Valid() && |payloads| == |lanes|
      ensures this.fetcher == fetcher && this.lanes == lanes && this.payloads == payloads && Valid()
      ensures loop == Consumption.Loop(committed, committed, {}, {})
    {
      this.fetcher, this.lanes, this.payloads := fetcher, lanes, payloads;
      this.loop := Consumption.Loop(committed, committed, {}, {});
    }

    predicate Valid() {
      |payloads| == |lanes| && fetcher.Valid()
    }

    ghost function Handled(): set<nat>
      reads fetcher.database
    {
      set i: nat | i < |payloads| && (payloads[i].tenantId, payloads[i].eventId, DocumentFetcher)
                                     in fetcher.database.processed
    }

    ghost predicate OffsetsOk()
      reads this, fetcher.database
    {
      Consumption.Inv(lanes, SubmittedTopic, Handled(), loop)
    }

    /** `poll`: the next record of some partition, or nothing. */
    method Poll() returns (record: Option<nat>)
      requires Valid() && OffsetsOk()
      modifies this
      ensures OffsetsOk()
      ensures record.None? ==> loop == old(loop)
      ensures record.Some? ==> record.value < |lanes| && loop.inflight == {record.value}
    {
      var i: nat :| true;
      if Consumption.CanPoll(lanes, SubmittedTopic, 1, loop, i) {
        Consumption.PollKeepsInv(lanes, SubmittedTopic, Handled(), loop, i);
        loop := Consumption.Poll(lanes, loop, i);
        return Some(i);
      }
      return None;
    }

    /** One record; false is an exception of the handler or of the commit, which ends the process. */
    method HandleAndCommit(i: nat, newId: Id, now: Time) returns (ok: bool)
      requires Valid() && OffsetsOk() && i < |lanes| && loop.inflight == {i}
      modifies this, fetcher.database, fetcher.store`faults
      ensures OffsetsOk()
      ensures ok ==> loop.inflight == {} && Consumption.At(loop.committed, lanes[i].partition) == i + 1
    {
      ghost var handled := Handled();
      ghost var before := fetcher.database.Contents();
      var applied, first := fetcher.Handle(payloads[i], newId, now);
      if applied.None? {
        return false;
      }
      ghost var inputs := FetchInputsFor(fetcher.config, fetcher.store.objects, payloads[i], first).value;
      FetchHasOneEffect(before, payloads[i], inputs.inspection, inputs.error, newId, now);
      Consumption.GrowKeepsInv(lanes, lanes, SubmittedTopic, handled, Handled(), loop);
      Consumption.ReturnKeepsInv(lanes, SubmittedTopic, Handled(), loop, i);
      loop := Consumption.Return(loop, i);
      ok :| true;
      if ok {
        Consumption.CommitKeepsInv(lanes, SubmittedTopic, Handled(), loop, i);
        loop := Consumption.Commit(lanes, loop, i);
      }
    }

    /** `_run`, for any number of polls. However it ends, every record below the committed offset of its partition has
        been processed, and a restart from there keeps it so. */
    method Run(polls: nat, ids: seq<Id>, clock: seq<Time>)
      requires Valid() && OffsetsOk() && loop.inflight == {} && |ids| == |clock| == polls
      modifies this, fetcher.database, fetcher.store`faults
      ensures OffsetsOk() && Consumption.Safe(lanes, SubmittedTopic, Handled(), loop)
      ensures Consumption.Inv(lanes, SubmittedTopic, Handled(), Consumption.Restart(loop))
    {
      var n := 0;
      var ok := true;
      while ok && n < polls
        invariant OffsetsOk() && (ok ==> loop.inflight == {}) && n <= polls
      {
        var record := Poll();
        if record.Some? {
          ok := HandleAndCommit(record.value, ids[n], clock[n]);
        }
        n := n + 1;
      }
      Consumption.RestartKeepsInv(lanes, SubmittedTopic, Handled(), loop);
    }
  }

  class ContentExtractor {
    const config: Config
    const store: SourceStore
    const artifacts: ArtifactStore
    const database: Database

    constructor (config: Config, store: SourceStore, artifacts: ArtifactStore, database: Database)
      requires store.bucket == config.bucket && artifacts.bucket == config.artifactBucket
      ensures this.config == config && this.store == store && this.artifacts == artifacts && this.database == database
      ensures Valid()
    {
      this.config, this.store, this.artifacts, this.database := config, store, artifacts, database;
    }

    predicate Valid() {
      store.bucket == config.bucket && artifacts.bucket == config.artifactBucket
    }

    /** The source check, `get`, the converter and `extract_pdf`. */
    method Convert(e: Event, convert: Bytes -> Conversion) returns (r: Extraction)
      requires Valid() && e.DocumentFetched? && e.inspectionStatus == "valid" && e.detectedMimeType == PDF_MIME
      modifies store`faults
      ensures r.ExtractionRaised? && store.faults == old(store.faults) ==>
                ExtractOutcomeFor(config, store.objects, e, ConversionOf(e, convert)).None?
      ensures r.Extracted? ==> ExtractOutcomeFor(config, store.objects, e, ConversionOf(e, convert))
                               == Some(Ok(r.result))
      ensures r.Rejected? ==>
                ExtractOutcomeFor(config, store.objects, e, ConversionOf(e, convert)) == Some(Err(r.error))
    {
      r := ExtractionRaised;
      var body := store.Get(e.payloadUri);
      if body.Some? {
        r := ExtractPdf(body.value, config.extractMax, e.contentSha256, config.sha, convert);
        if body.value.faults > 0 {
          store.faults := store.faults + 1;
        }
      }
    }

    /** The bucket after both artifacts of `result` were written. */
    ghost function WithArtifacts(objects: map<string, Artifact>, e: Event, result: ExtractionResult)
      : map<string, Artifact>
      requires e.DocumentFetched?
    {
      objects[NormalizedFor(e) := NormalizedOf(result)][ManifestFor(e) := ManifestOf(result, e.contentSha256)]
    }

    /** Both artifacts are written before the transaction; None is an exception of either put, after which one of them,
        both or none may be there. */
    method StoreArtifacts(e: Event, result: ExtractionResult) returns (uris: Option<(string, string)>)
      requires Valid() && e.DocumentFetched?
      modifies artifacts
      ensures artifacts.faults == old(artifacts.faults) + if uris.Some? then 0 else 1
      ensures uris.Some? ==>
                && uris.value == (ObjectUri(config.artifactBucket, NormalizedFor(e)),
                                  ObjectUri(config.artifactBucket, ManifestFor(e)))
                && artifacts.objects == WithArtifacts(old(artifacts.objects), e, result)
      ensures uris.Some? ==>
                var normalized := e.tenantId + "/" + e.documentVersionId + "/extracted/" + e.contentSha256
                                  + "/normalized.json";
                var manifest := e.tenantId + "/" + e.documentVersionId + "/extracted/" + e.contentSha256
                                + "/manifest.json";
                && uris.value == ("s3://" + config.artifactBucket + "/" + normalized,
                                  "s3://" + config.artifactBucket + "/" + manifest)
                && artifacts.objects
                   == old(artifacts.objects)[normalized := Normalized(result.document, result.markdown)]
                                            [manifest := Manifest(result.status, e.contentSha256)]
      ensures uris.None? ==>
                || artifacts.objects == old(artifacts.objects)
                || artifacts.objects == old(artifacts.objects)[NormalizedFor(e) := NormalizedOf(result)]
                || artifacts.objects == WithArtifacts(old(artifacts.objects), e, result)
    {
      var key := NormalizedKey(e.tenantId, e.documentVersionId, e.contentSha256);
      var normalized := artifacts.PutJson(key, NormalizedOf(result));
      if normalized.None? {
        return None;
      }
      key := ManifestKey(e.tenantId, e.documentVersionId, e.contentSha256);
      var manifest := artifacts.PutJson(key, ManifestOf(result, e.contentSha256));
      if manifest.None? {
        return None;
      }
      return Some((normalized.value, manifest.value));
    }

    /** The transaction of an outcome, with the URIs of its artifacts. */
    ghost function FinishFor(before: Db, e: Event, status: ExtractionStatus, newId: Id, now: Time): Tx
      requires e.DocumentFetched?
    {
      Finish(before, e, Ok(status), ObjectUri(config.artifactBucket, NormalizedFor(e)),
                    ObjectUri(config.artifactBucket, ManifestFor(e)), newId, now)
    }

    /** The end of a successful extraction. */
    method Persist(e: Event, result: ExtractionResult, newId: Id, now: Time) returns (applied: Option<bool>)
      requires Valid() && e.DocumentFetched?
      modifies artifacts, database
      ensures applied.None? ==> database.Contents() == old(database.Contents())
      ensures applied.None? && artifacts.faults == old(artifacts.faults) && database.faults == old(database.faults) ==>
                FinishFor(old(database.Contents()), e, result.status, newId, now).Raised?
      ensures applied.Some? ==>
                && artifacts.objects == WithArtifacts(old(artifacts.objects), e, result)
                && FinishFor(old(database.Contents()), e, result.status, newId, now)
                   == Committed(database.Contents(), applied.value)
    {
      var uris := StoreArtifacts(e, result);
      if uris.None? {
        return None;
      }
      applied := database.Finish(e, Ok(result.status), uris.value.0, uris.value.1, newId, now);
    }

    /** What a return of `handle` did: the transaction for the outcome of the conversion, and nothing else; what it
        references was stored before. */
    ghost predicate Handled(e: Event, conversion: Conversion, newId: Id, now: Time, before: Db, applied: bool,
                            stored: map<string, Artifact>)
      reads store, artifacts, database
    {
      var outcome := ExtractOutcomeFor(config, store.objects, e, conversion);
      && outcome.Some?
      && (outcome.value.Ok? ==>
            && e.DocumentFetched? && artifacts.objects == WithArtifacts(stored, e, outcome.value.value)
            && FinishFor(before, e, outcome.value.value.status, newId, now) == Committed(database.Contents(), applied))
      && (outcome.value.Err? ==>
            && artifacts.objects == stored
            && Reject(before, e, outcome.value.error, newId, now) == Committed(database.Contents(), applied))
    }

    /** Why `handle` raises when no store fails. */
    ghost predicate Raises(e: Event, conversion: Conversion, newId: Id, now: Time, before: Db)
      reads store
    {
      var outcome := ExtractOutcomeFor(config, store.objects, e, conversion);
      outcome.Some? ==>
        && (outcome.value.Ok? ==>
              e.DocumentFetched? && FinishFor(before, e, outcome.value.value.status, newId, now).Raised?)
        && (outcome.value.Err? ==> Reject(before, e, outcome.value.error, newId, now).Raised?)
    }

    method HandleValid(e: Event, convert: Bytes -> Conversion, newId: Id, now: Time) returns (applied: Option<bool>)
      requires Valid() && e.DocumentFetched? && e.inspectionStatus == "valid" && e.detectedMimeType == PDF_MIME
      modifies artifacts, database, store`faults
      ensures applied.None? ==> database.Contents() == old(database.Contents())
      ensures applied.None? && store.faults == old(store.faults) && artifacts.faults == old(artifacts.faults)
              && database.faults == old(database.faults) ==>
                Raises(e, ConversionOf(e, convert), newId, now, old(database.Contents()))
      ensures applied.Some? ==>
                Handled(e, ConversionOf(e, convert), newId, now, old(database.Contents()), applied.value,
                        old(artifacts.objects))
    {
      var r := Convert(e, convert);
      match r {
        case ExtractionRaised => applied := None;
        case Rejected(error) => applied := database.Reject(e, error, newId, now);
        case Extracted(result) => applied := Persist(e, result, newId, now);
      }
    }

    /** `handle`: None is an exception, and then the tables are as they were. Unless a store or the
        database fails, it raises only for a source that cannot be read, a missing converter, or a transaction that
        raises. */
    method Handle(e: Event, convert: Bytes -> Conversion, newId: Id, now: Time) returns (applied: Option<bool>)
      requires Valid()
      modifies artifacts, database, store`faults
      ensures applied.None? ==> database.Contents() == old(database.Contents())
      ensures applied.None? && store.faults == old(store.faults) && artifacts.faults == old(artifacts.faults)
              && database.faults == old(database.faults) ==>
                Raises(e, ConversionOf(e, convert), newId, now, old(database.Contents()))
      ensures applied.Some? ==>
                Handled(e, ConversionOf(e, convert), newId, now, old(database.Contents()), applied.value,
                        old(artifacts.objects))
    {
      if !e.DocumentFetched? {
        applied := database.Reject(e, UnexpectedEventType, newId, now);
      } else if e.inspectionStatus != "valid" || e.detectedMimeType != PDF_MIME {
        applied := database.Reject(e, UnsupportedSource, newId, now);
      } else {
        applied := HandleValid(e, convert, newId, now);
      }
    }

    ghost function ConversionOf(e: Event, convert: Bytes -> Conversion): Conversion
      reads store
    {
      var content := if e.DocumentFetched? then ReadSource(config, store.objects, e.payloadUri) else None;
      if content.Some? then convert(content.value) else NotConverted
    }
  }
}
