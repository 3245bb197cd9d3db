/** What holds of every reachable state of the pipeline, and the ways in which steps only ever add to it. */
module PipelineInvariant {
  import opened Domain
  import opened Ledger
  import opened Provenance
  import opened SourceKeys
  import opened Consumption
  import opened Pipeline
  import Outbox
  import Streams
  import Relay

  // ---- The source object of a version ----

  /** The key inside a URI of the bucket, as `put` wrote it. */
  function KeyIn(bucket: string, uri: string): string {
    var lead := ObjectUri(bucket, "");
    if lead <= uri then uri[|lead|..] else ""
  }

  lemma KeyInUri(bucket: string, key: string)
    ensures KeyIn(bucket, ObjectUri(bucket, key)) == key
  {
    assert ObjectUri(bucket, key) == ObjectUri(bucket, "") + key;
  }

  function BytesOf(c: Config, sources: map<string, Bytes>, v: VersionRow): Bytes {
    var key := KeyIn(c.bucket, v.sourceUri);
    if key in sources then sources[key] else []
  }

  /** The version row names a stored object of its own tenant and document, with its digest and size. */
  ghost predicate SourceStored(c: Config, sources: map<string, Bytes>, ref: Ref, v: VersionRow) {
    var key := KeyIn(c.bucket, v.sourceUri);
    && v.sourceUri == ObjectUri(c.bucket, key)
    && IsUuid(ref.0) && IsUuid(ref.1) && IsUuid(v.documentId)
    && DocumentPrefix(ref.0, v.documentId) <= key
    && key in sources
    && c.sha(sources[key]) == v.contentSha256 && |sources[key]| == v.byteSize <= c.apiMax
  }

  /** Every object was stored for a document id that was issued, and for each there is at most one object. */
  ghost predicate OneObjectEach(sources: map<string, Bytes>, issued: set<Id>) {
    && (forall k :: k in sources ==> OwnerOf(k) in issued)
    && (forall k, m :: k in sources && m in sources && OwnerOf(k) == OwnerOf(m) ==> k == m)
  }

  ghost predicate Unclaimed(sources: map<string, Bytes>, d: Id) {
    forall k :: k in sources ==> OwnerOf(k) != d
  }

  /** Of document `d` there is at most the object under this key. */
  ghost predicate OnlyKey(sources: map<string, Bytes>, d: Id, key: string) {
    forall k :: k in sources && OwnerOf(k) == d ==> k == key
  }

  /** A request that still runs has no document row yet; its object is there once `put` returned. */
  ghost predicate CallOk(c: Config, s: State, d: Id, call: Call) {
    && call.documentId == d && d in s.issued
    && IsUuid(call.tenantId) && IsUuid(d) && IsUuid(call.versionId) && |call.content| <= c.apiMax
    && (forall x :: x in s.db.documents ==> x.1 != d)
    && (call.phase.Uploading? ==> Unclaimed(s.sources, d))
    && (call.phase.Stored? ==> KeyFor(call) in s.sources && s.sources[KeyFor(call)] == call.content)
    && (call.phase.Compensating? ==> OnlyKey(s.sources, d, KeyFor(call)))
  }

  ghost predicate StoreInv(c: Config, s: State) {
    && IsBucket(c.bucket)
    && OneObjectEach(s.sources, s.issued)
    && (forall d :: d in s.db.documents ==> d.1 in s.issued)
    && (forall v :: v in s.db.versions ==> SourceStored(c, s.sources, v, s.db.versions[v]))
    && (forall d :: d in s.calls ==> CallOk(c, s, d, s.calls[d]))
  }

  // ---- Outcomes ----

  /** The only errors the fetcher can report on a submitted document, and when. A missing signature can also be a first
      read of fewer than five bytes. */
  predicate FetchErrorOk(c: Config, v: VersionRow, content: Bytes, error: FetchError) {
    match error
    case InvalidPdfSignature => true
    case DocumentTooLarge =>
      Streams.IsPdf(content) && v.byteSize > c.fetcherMax && c.fetcherMax + 1 >= |Streams.SIGNATURE|
    case EncryptedPdf => Streams.IsPdf(content) && v.byteSize <= c.fetcherMax && c.parse(content).Encrypted?
    case CorruptPdf => Streams.IsPdf(content) && v.byteSize <= c.fetcherMax && c.parse(content).Unreadable?
    case DeclaredMimeMismatch => Passed(c, v, content) && v.mimeType !in [PDF_MIME, OCTET_MIME]
    case _ => false
  }

  /** The only errors the extractor can report on a fetched document, and when. */
  predicate ExtractErrorOk(c: Config, v: VersionRow, error: ExtractError) {
    match error
    case SourceTooLarge => v.byteSize > c.extractMax
    case ConversionFailed => v.byteSize <= c.extractMax
    case InvalidConverterOutput => v.byteSize <= c.extractMax
    case _ => false
  }

  predicate Passed(c: Config, v: VersionRow, content: Bytes) {
    Streams.IsPdf(content) && v.byteSize <= c.fetcherMax && c.parse(content).Pages?
  }

  ghost predicate InputsOk(c: Config, v: VersionRow, content: Bytes, inputs: FetchInputs) {
    && FetchArguments(inputs.inspection, inputs.error)
    && (inputs.inspection.Some? ==>
          && inputs.inspection.value.contentSha256 == v.contentSha256
          && inputs.inspection.value.byteSize == v.byteSize
          && Passed(c, v, content))
    && (inputs.error.Some? ==>
          inputs.error.value != DeclaredMimeMismatch && FetchErrorOk(c, v, content, inputs.error.value))
  }

  predicate OutcomeOk(c: Config, v: VersionRow, outcome: Result<ExtractionStatus, ExtractError>) {
    match outcome
    case Ok(status) => status in {Succeeded, NeedsReview}
    case Err(error) => ExtractErrorOk(c, v, error)
  }

  function VersionRef(e: Event): Ref
    requires HasVersion(e)
  {
    (e.tenantId, e.documentVersionId)
  }

  ghost predicate FetchRunOk(c: Config, s: State, run: FetchRun) {
    && Readable(s, run.record) && EventAt(s, run.record).DocumentSubmitted?
    && Known(View(s.db), Doc(EventAt(s, run.record)))
    && var v := s.db.versions[VersionOf(View(s.db), Doc(EventAt(s, run.record)))];
       InputsOk(c, v, BytesOf(c, s.sources, v), run.inputs)
  }

  ghost predicate ExtractRunOk(c: Config, s: State, run: ExtractRun) {
    && Readable(s, run.record) && EventAt(s, run.record).DocumentFetched?
    && VersionRef(EventAt(s, run.record)) in s.db.versions
    && OutcomeOk(c, s.db.versions[VersionRef(EventAt(s, run.record))], Report(run.outcome))
    && (run.stored >= 1 ==> NormalizedFor(EventAt(s, run.record)) in s.artifacts)
    && (run.stored >= 2 ==> ManifestFor(EventAt(s, run.record)) in s.artifacts)
  }

  /** Both artifacts of a version are in the bucket, under its own prefix. */
  ghost predicate ArtifactsStored(c: Config, artifacts: set<string>, ref: Ref, sha: string, normalizedUri: string,
                                  manifestUri: string)
  {
    && normalizedUri == ObjectUri(c.artifactBucket, NormalizedKey(ref.0, ref.1, sha))
    && manifestUri == ObjectUri(c.artifactBucket, ManifestKey(ref.0, ref.1, sha))
    && NormalizedKey(ref.0, ref.1, sha) in artifacts
    && ManifestKey(ref.0, ref.1, sha) in artifacts
  }

  ghost predicate ReferenceOk(c: Config, artifacts: set<string>, ref: Ref, v: VersionRow) {
    && v.normalizedUri.Some? == v.manifestUri.Some?
    && (v.normalizedUri.Some? ==>
          ArtifactsStored(c, artifacts, ref, v.contentSha256, v.normalizedUri.value, v.manifestUri.value))
  }

  /** What an event of the outbox says about its version beyond `Provenance.Grounded`. */
  ghost predicate EventOk(c: Config, s: State, e: Event) {
    match e
    case DocumentSubmitted(_, _, _, _, _, _) => true
    case DocumentFetchRejected(_, _, _, _, _, _, error) =>
      && Known(View(s.db), Doc(e))
      && var v := s.db.versions[VersionOf(View(s.db), Doc(e))]; FetchErrorOk(c, v, BytesOf(c, s.sources, v), error)
    case DocumentFetched(_, _, _, _, _, _, _, _, _, byteSize, _) =>
      && VersionRef(e) in s.db.versions
      && var v := s.db.versions[VersionRef(e)];
         byteSize == v.byteSize && v.mimeType in [PDF_MIME, OCTET_MIME] && Passed(c, v, BytesOf(c, s.sources, v))
    case ContentExtracted(_, _, _, _, _, _, sha, normalizedUri, manifestUri, _) =>
      && VersionRef(e) in s.db.versions && s.db.versions[VersionRef(e)].contentSha256 == sha
      && ArtifactsStored(c, s.artifacts.Keys, VersionRef(e), sha, normalizedUri, manifestUri)
    case ContentExtractionRejected(_, _, _, _, _, _, error) =>
      VersionRef(e) in s.db.versions && ExtractErrorOk(c, s.db.versions[VersionRef(e)], error)
  }

  ghost predicate OutcomesInv(c: Config, s: State) {
    && (forall i {:trigger EventOk(c, s, s.db.outbox[i].event)} ::
          0 <= i < |s.db.outbox| ==> EventOk(c, s, s.db.outbox[i].event))
    && (forall v :: v in s.db.versions ==> ReferenceOk(c, s.artifacts.Keys, v, s.db.versions[v]))
  }

  ghost predicate RunsInv(c: Config, s: State) {
    && (forall r :: r in s.fetches ==> FetchRunOk(c, s, s.fetches[r]))
    && (forall r :: r in s.runs ==> ExtractRunOk(c, s, s.runs[r]))
  }

  // ---- Consumption ----

  /** The records whose event the consumer has processed. */
  ghost function HandledBy(s: State, consumer: Consumer): set<nat> {
    set i: nat | i < |s.log| && Readable(s, i)
                 && (EventAt(s, i).tenantId, EventAt(s, i).eventId, consumer) in s.db.processed
  }

  ghost predicate FetcherInv(s: State) {
    Consumption.Inv(Lanes(s.log), SubmittedTopic, HandledBy(s, DocumentFetcher), s.fetcher)
  }

  ghost predicate ExtractorInv(s: State) {
    Consumption.Inv(Lanes(s.log), FetchedTopic, HandledBy(s, ContentExtractor), s.extractor)
  }

  ghost predicate OffsetsInv(c: Config, s: State) {
    FetcherInv(s) && (c.slots == 1 ==> ExtractorInv(s))
  }

  // ---- The whole ----

  ghost predicate TablesInv(db: Db) {
    && Lineage(View(db)) && Statuses(View(db))
    && (forall r :: 0 <= r < |db.outbox| ==> db.outbox[r].topic == TopicOf(db.outbox[r].event))
  }

  ghost predicate Inv(c: Config, s: State) {
    && TablesInv(s.db)
    && Relay.Inv(RelayOf(s), s.now)
    && StoreInv(c, s)
    && RunsInv(c, s)
    && OutcomesInv(c, s)
    && OffsetsInv(c, s)
  }

  lemma EmptyTablesInv(db: Db)
    requires db == Db(db.tenants, map[], map[], {}, [])
    ensures TablesInv(db)
  {
    var f := View(db);
    assert f == Facts(db.tenants, map[], map[], {}, []);
    assert Chained(f.processed, f.events);
  }

  lemma EmptyRelayIsExclusive(r: Relay.State, now: Time)
    requires r.rows == [] && r.publishers == map[]
    ensures Relay.Exclusive(r, now)
  {
  }

  lemma EmptyRelayIsDelivered(r: Relay.State)
    requires r.rows == [] && r.publishers == map[] && r.wire == [] && r.log == []
    ensures Relay.OneSendPerAttempt(r) && Relay.LogIsSent(r) && Relay.QueueOrLog(r)
  {
  }

  lemma EmptyRelayInv(r: Relay.State, now: Time)
    requires r.rows == [] && r.publishers == map[] && r.wire == [] && r.log == []
    ensures Relay.Inv(r, now)
  {
    EmptyRelayIsExclusive(r, now);
    EmptyRelayIsDelivered(r);
  }

  lemma EmptyStoreInv(c: Config, s: State)
    requires IsBucket(c.bucket) && s.db.documents == map[] && s.db.versions == map[] && s.calls == map[]
    requires s.sources == map[] && s.fetches == map[] && s.runs == map[] && s.db.outbox == []
    ensures StoreInv(c, s) && RunsInv(c, s) && OutcomesInv(c, s)
  {
  }

  lemma EmptyOffsetsInv(c: Config, s: State)
    requires s.log == [] && s.fetcher == FRESH_LOOP && s.extractor == FRESH_LOOP
    ensures OffsetsInv(c, s)
  {
  }

  lemma StartSatisfiesInv(c: Config, s: State)
    requires Start(c, s)
    ensures Inv(c, s)
  {
    EmptyTablesInv(s.db);
    EmptyRelayInv(RelayOf(s), s.now);
    EmptyStoreInv(c, s);
    EmptyOffsetsInv(c, s);
  }

  // ---- What steps keep ----

  predicate SameSource(a: VersionRow, b: VersionRow) {
    && a.documentId == b.documentId && a.contentSha256 == b.contentSha256 && a.sourceUri == b.sourceUri
    && a.mimeType == b.mimeType && a.byteSize == b.byteSize
  }

  ghost predicate RowsKept(a: seq<Outbox.Row>, b: seq<Outbox.Row>) {
    |a| <= |b| && forall r :: 0 <= r < |a| ==> b[r].event == a[r].event && b[r].topic == a[r].topic
  }

  ghost predicate DocumentsKept(a: Db, b: Db) {
    forall d :: d in a.documents ==> d in b.documents && b.documents[d].currentVersion == a.documents[d].currentVersion
  }

  ghost predicate VersionsKept(a: Db, b: Db) {
    forall v :: v in a.versions ==> v in b.versions && SameSource(a.versions[v], b.versions[v])
  }

  /** Rows and keys are never lost, and what they are about does not change. */
  ghost predicate DbKept(a: Db, b: Db) {
    && RowsKept(a.outbox, b.outbox) && a.processed <= b.processed
    && DocumentsKept(a, b) && VersionsKept(a, b)
  }

  ghost predicate SourcesKept(c: Config, versions: map<Ref, VersionRow>, a: map<string, Bytes>, b: map<string, Bytes>) {
    forall v :: v in versions ==> BytesOf(c, b, versions[v]) == BytesOf(c, a, versions[v])
  }

  ghost predicate Kept(c: Config, s: State, t: State) {
    && DbKept(s.db, t.db)
    && Relay.Extends(RelayOf(s), RelayOf(t))
    && SourcesKept(c, s.db.versions, s.sources, t.sources)
    && s.artifacts.Keys <= t.artifacts.Keys
  }

  lemma EventStays(c: Config, s: State, t: State, i: nat)
    requires Kept(c, s, t) && Readable(s, i)
    ensures Readable(t, i) && EventAt(t, i) == EventAt(s, i) && t.log[i] == s.log[i]
  {
    assert t.log[i] == s.log[i];
  }

  lemma VersionStays(c: Config, s: State, t: State, v: Ref)
    requires Kept(c, s, t) && v in s.db.versions
    ensures v in t.db.versions && SameSource(s.db.versions[v], t.db.versions[v])
    ensures BytesOf(c, t.sources, t.db.versions[v]) == BytesOf(c, s.sources, s.db.versions[v])
  {
  }

  lemma DocumentStays(a: Db, b: Db, d: Ref)
    requires DocumentsKept(a, b) && VersionsKept(a, b) && Known(View(a), d)
    ensures Known(View(b), d) && VersionOf(View(b), d) == VersionOf(View(a), d)
  {
  }

  lemma FetchRunStays(c: Config, s: State, t: State, run: FetchRun)
    requires Kept(c, s, t) && FetchRunOk(c, s, run)
    ensures FetchRunOk(c, t, run)
  {
    EventStays(c, s, t, run.record);
    var d := Doc(EventAt(s, run.record));
    DocumentStays(s.db, t.db, d);
    VersionStays(c, s, t, VersionOf(View(s.db), d));
  }

  lemma ExtractRunStays(c: Config, s: State, t: State, run: ExtractRun)
    requires Kept(c, s, t) && ExtractRunOk(c, s, run)
    ensures ExtractRunOk(c, t, run)
  {
    EventStays(c, s, t, run.record);
    VersionStays(c, s, t, VersionRef(EventAt(s, run.record)));
  }

  lemma EventOkStays(c: Config, s: State, t: State, e: Event)
    requires Kept(c, s, t) && EventOk(c, s, e)
    ensures EventOk(c, t, e)
  {
    if e.DocumentFetchRejected? {
      DocumentStays(s.db, t.db, Doc(e));
      VersionStays(c, s, t, VersionOf(View(s.db), Doc(e)));
    } else if !e.DocumentSubmitted? {
      VersionStays(c, s, t, VersionRef(e));
    }
  }

  /** Runs that were there, if no longer of the tracked consumer, and new ones that are as they should be. */
  lemma RunsStay(c: Config, s: State, t: State)
    requires Kept(c, s, t) && RunsInv(c, s)
    requires forall r :: r in t.fetches ==>
               (r in s.fetches && t.fetches[r].(owned := s.fetches[r].owned) == s.fetches[r])
               || FetchRunOk(c, t, t.fetches[r])
    requires forall r :: r in t.runs ==>
               (r in s.runs && t.runs[r].(owned := s.runs[r].owned) == s.runs[r])
               || ExtractRunOk(c, t, t.runs[r])
    ensures RunsInv(c, t)
  {
    forall r | r in t.fetches ensures FetchRunOk(c, t, t.fetches[r]) {
      if r in s.fetches && t.fetches[r].(owned := s.fetches[r].owned) == s.fetches[r] {
        FetchRunStays(c, s, t, s.fetches[r]);
      }
    }
    forall r | r in t.runs ensures ExtractRunOk(c, t, t.runs[r]) {
      if r in s.runs && t.runs[r].(owned := s.runs[r].owned) == s.runs[r] {
        ExtractRunStays(c, s, t, s.runs[r]);
      }
    }
  }

  lemma HandledGrows(c: Config, s: State, t: State, consumer: Consumer)
    requires Kept(c, s, t)
    ensures HandledBy(s, consumer) <= HandledBy(t, consumer)
    ensures Lanes(s.log) <= Lanes(t.log)
  {
    forall i | i in HandledBy(s, consumer) ensures i in HandledBy(t, consumer) {
      EventStays(c, s, t, i);
    }
    assert forall i :: 0 <= i < |s.log| ==> Lanes(t.log)[i] == t.log[i].lane == Lanes(s.log)[i];
  }
}
