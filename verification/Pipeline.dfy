/** The whole pipeline as one state machine: API calls, publishers, Kafka, fetcher and extractor, interleaved in any
    order, crashing anywhere, with records redelivered to any number of handlers. */
module Pipeline {
  import opened Domain
  import opened Ledger
  import opened SourceKeys
  import opened Consumption
  import Streams
  import Relay

  // `sha` and `parse` stand for SHA-256 and pypdf: any functions of the whole byte sequence.
  datatype Config = Config(bucket: string, artifactBucket: string, apiMax: nat, fetcherMax: nat, extractMax: nat,
                           slots: nat, sha: Bytes -> string, parse: Bytes -> Streams.PdfParse)

  datatype Phase = Uploading | Stored | Compensating

  // One request to POST /v1/documents, after its body was received.
  datatype Call = Call(tenantId: Id, documentId: Id, versionId: Id, eventId: Id, filename: string, externalId: string,
                       mimeType: string, content: Bytes, phase: Phase)

  // What `DocumentFetcher.handle` passes to `process`.
  datatype FetchInputs = FetchInputs(inspection: Option<Streams.SourceInspection>, error: Option<FetchError>)

  // One activation of a `handle`, between reading the source object and its transaction. An owned one belongs to the
  // tracked consumer; the others are leftovers of a crash or belong to another process.
  datatype FetchRun = FetchRun(record: nat, inputs: FetchInputs, owned: bool)

  datatype ExtractRun =
    ExtractRun(record: nat, outcome: Result<Streams.ExtractionResult, ExtractError>, stored: nat, owned: bool)

  datatype State = State(now: Time, db: Db, publishers: map<nat, Relay.Publisher>, wire: seq<Relay.Send>,
                         log: seq<Relay.LogRecord>, sources: map<string, Bytes>,
                         artifacts: map<string, Streams.Artifact>, issued: set<Id>, calls: map<Id, Call>,
                         fetches: map<nat, FetchRun>, runs: map<nat, ExtractRun>, fetcher: Loop, extractor: Loop)

  datatype RequestStep =
    | Receive(call: Call)
    | PutObject(d: Id)
    | PutFails(d: Id, kept: bool)            // 503; the object may be there or not
    | CommitSubmission(d: Id)                // commits, or raises an IntegrityError
    | CommitAborts(d: Id)                    // any other database failure
    | DeleteObject(d: Id)
    | LoseCall(d: Id)                        // the API process dies, or the compensating delete raises

  datatype HandlerStep =
    | BeginFetch(r: nat, i: nat, first: nat, owned: bool)
    | FinishFetch(r: nat, newId: Id)
    | DropFetch(r: nat)
    | BeginExtract(r: nat, i: nat, conversion: Streams.Conversion, owned: bool)
    | StoreNormalized(r: nat)
    | StoreManifest(r: nat)
    | FinishExtract(r: nat, newId: Id)
    | DropRun(r: nat)

  datatype LoopStep =
    | PollFetcher(i: nat)
    | CommitFetcher(i: nat)
    | RestartFetcher
    | PollExtractor(i: nat)
    | CommitExtractor(i: nat)
    | RestartExtractor

  datatype Step = Requesting(q: RequestStep) | Relaying(b: Relay.Step) | Handling(h: HandlerStep) | Looping(l: LoopStep)
                | Tick

  function RelayOf(s: State): Relay.State {
    Relay.State(s.db.outbox, s.publishers, s.wire, s.log)
  }

  function WithRelay(s: State, r: Relay.State): State {
    s.(db := s.db.(outbox := r.rows), publishers := r.publishers, wire := r.wire, log := r.log)
  }

  function Lanes(log: seq<Relay.LogRecord>): (r: seq<Lane>)
    ensures |r| == |log|
  {
    seq(|log|, i requires 0 <= i < |log| => log[i].lane)
  }

  predicate Readable(s: State, i: nat) {
    && i < |s.log| && s.log[i].send < |s.wire|
    && s.wire[s.log[i].send].item.row < |s.db.outbox|
  }

  /** The payload of a log record is that of its outbox row. */
  function EventAt(s: State, i: nat): Event
    requires Readable(s, i)
  {
    s.db.outbox[s.wire[s.log[i].send].item.row].event
  }

  function KeyFor(call: Call): string {
    SourceKey(call.tenantId, call.documentId, call.filename)
  }

  function SubmissionFor(c: Config, call: Call): Submission {
    var uri := ObjectUri(c.bucket, KeyFor(call));
    Submission(call.tenantId, call.documentId, call.versionId, call.externalId, c.sha(call.content), uri,
               call.mimeType, |call.content|,
               BuildDocumentSubmitted(call.eventId, call.tenantId, call.documentId, uri, None))
  }

  /** `SourceObjectStore.get` and reading its body; None is an exception. */
  function ReadSource(c: Config, sources: map<string, Bytes>, uri: string): Option<Bytes> {
    var key := KeyOfUri(c.bucket, uri);
    if key.Some? && key.value in sources then Some(sources[key.value]) else None
  }

  /** What `DocumentFetcher.handle` passes to `process` when the first read returns `first` bytes. */
  function FetchInputsFor(c: Config, sources: map<string, Bytes>, e: Event, first: nat): Option<FetchInputs> {
    if !e.DocumentSubmitted? then Some(FetchInputs(None, Some(UnexpectedSubmission)))
    else
      var content := ReadSource(c, sources, e.payloadUri);
      if content.None? || !Streams.FirstChunk(content.value, first, c.fetcherMax) then None
      else
        match Streams.Inspect(content.value, first, c.fetcherMax, c.sha, c.parse)
        case Inspected(source) => Some(FetchInputs(Some(source), None))
        case Invalid(error) => Some(FetchInputs(None, Some(error)))
        case InspectionRaised => None
  }

  /** What the fetcher says of a payload. An event of another type is rejected unread; of a submission, whose source is
      there, the bytes decide, and `process` is not called at all only if the inspector crashes. */
  lemma FetchInputsIff(c: Config, sources: map<string, Bytes>, e: Event, first: nat)
    ensures var inputs := FetchInputsFor(c, sources, e, first);
            && (!e.DocumentSubmitted? ==> inputs == Some(FetchInputs(None, Some(UnexpectedSubmission))))
            && (e.DocumentSubmitted? && inputs.Some? ==> ReadSource(c, sources, e.payloadUri).Some?)
            && (e.DocumentSubmitted? && ReadSource(c, sources, e.payloadUri).Some? ==>
                  var content := ReadSource(c, sources, e.payloadUri).value;
                  Streams.FirstChunk(content, first, c.fetcherMax) ==> SaysOf(c, content, first, inputs))
  {
    var content := if e.DocumentSubmitted? then ReadSource(c, sources, e.payloadUri) else None;
    if content.Some? && Streams.FirstChunk(content.value, first, c.fetcherMax) {
      Streams.VerdictIff(content.value, first, c.fetcherMax, c.sha, c.parse);
    }
  }

  predicate SaysOf(c: Config, content: Bytes, first: nat, inputs: Option<FetchInputs>) {
    var signed := first >= 5 && |content| >= 5 && content[..5] == [0x25, 0x50, 0x44, 0x46, 0x2D];
    if !signed then inputs == Some(FetchInputs(None, Some(InvalidPdfSignature)))
    else if |content| > c.fetcherMax then inputs == Some(FetchInputs(None, Some(DocumentTooLarge)))
    else
      match c.parse(content)
      case Encrypted => inputs == Some(FetchInputs(None, Some(EncryptedPdf)))
      case Unreadable => inputs == Some(FetchInputs(None, Some(CorruptPdf)))
      case Crash => inputs == None
      case Pages(n) =>
        inputs == Some(FetchInputs(Some(Streams.SourceInspection("application/pdf", c.sha(content), |content|, n)),
                                   None))
  }

  /** What `ContentExtractor.handle` makes of a payload; None is an exception other than ExtractionError. */
  function ExtractOutcomeFor(c: Config, sources: map<string, Bytes>, e: Event, conversion: Streams.Conversion)
    : Option<Result<Streams.ExtractionResult, ExtractError>>
  {
    if !e.DocumentFetched? then Some(Err(UnexpectedEventType))
    else if e.inspectionStatus != "valid" || e.detectedMimeType != PDF_MIME then Some(Err(UnsupportedSource))
    else
      var content := ReadSource(c, sources, e.payloadUri);
      if content.None? then None
      else
        match Streams.Extract(content.value, c.extractMax, e.contentSha256, c.sha, conversion)
        case Extracted(result) => Some(Ok(result))
        case Rejected(error) => Some(Err(error))
        case ExtractionRaised => None
  }

  /** What the extractor makes of a payload: the two guards come before anything is read. */
  lemma ExtractOutcomeIff(c: Config, sources: map<string, Bytes>, e: Event, conversion: Streams.Conversion)
    ensures var outcome := ExtractOutcomeFor(c, sources, e, conversion);
            && (outcome == Some(Err(UnexpectedEventType)) <==> !e.DocumentFetched?)
            && (outcome == Some(Err(UnsupportedSource)) <==>
                  e.DocumentFetched? && (e.inspectionStatus != "valid" || e.detectedMimeType != "application/pdf"))
            && (e.DocumentFetched? && e.inspectionStatus == "valid" && e.detectedMimeType == "application/pdf" ==>
                  match ReadSource(c, sources, e.payloadUri)
                  case None => outcome == None
                  case Some(content) => EndsIn(c, content, e.contentSha256, conversion, outcome))
  {
    var content := if e.DocumentFetched? then ReadSource(c, sources, e.payloadUri) else None;
    if content.Some? {
      Streams.OutcomeIff(content.value, c.extractMax, e.contentSha256, c.sha, conversion);
      Streams.ExtractedIsFaithful(content.value, c.extractMax, e.contentSha256, c.sha, conversion);
    }
  }

  ghost predicate EndsIn(c: Config, content: Bytes, sha: string, conversion: Streams.Conversion,
                         outcome: Option<Result<Streams.ExtractionResult, ExtractError>>)
  {
    if |content| > c.extractMax then outcome == Some(Err(SourceTooLarge))
    else if |content| == 0 then outcome == Some(Err(EmptySource))
    else
      match conversion
      case ConverterMissing => outcome == None
      case NotConverted => outcome == Some(Err(ConversionFailed))
      case NotADocument => outcome == Some(Err(InvalidConverterOutput))
      case Converted(document, markdown) =>
        if c.sha(content) != sha then outcome == Some(Err(SourceChecksumMismatch))
        else outcome.Some? && outcome.value.Ok? && Streams.Faithful(document, markdown, outcome.value.value)
  }

  /** What `complete` and `reject` record of an outcome. */
  function Report(outcome: Result<Streams.ExtractionResult, ExtractError>): Result<ExtractionStatus, ExtractError> {
    match outcome
    case Ok(result) => Ok(result.status)
    case Err(error) => Err(error)
  }

  function NormalizedFor(e: Event): string
    requires e.DocumentFetched?
  {
    NormalizedKey(e.tenantId, e.documentVersionId, e.contentSha256)
  }

  function ManifestFor(e: Event): string
    requires e.DocumentFetched?
  {
    ManifestKey(e.tenantId, e.documentVersionId, e.contentSha256)
  }

  function FinishTx(c: Config, s: State, r: nat, newId: Id, now: Time): Tx
    requires r in s.runs && Readable(s, s.runs[r].record)
  {
    var e := EventAt(s, s.runs[r].record);
    if e.DocumentFetched? then
      Finish(s.db, e, Report(s.runs[r].outcome), ObjectUri(c.artifactBucket, NormalizedFor(e)),
             ObjectUri(c.artifactBucket, ManifestFor(e)), newId, now)
    else if s.runs[r].outcome.Err? then Reject(s.db, e, s.runs[r].outcome.error, newId, now)
    else Raised(None)
  }

  ghost function FetchTx(s: State, r: nat, newId: Id, now: Time): Tx
    requires r in s.fetches && Readable(s, s.fetches[r].record)
  {
    var inputs := s.fetches[r].inputs;
    Fetch(s.db, EventAt(s, s.fetches[r].record), inputs.inspection, inputs.error, newId, now)
  }

  function DisownedFetches(fetches: map<nat, FetchRun>): map<nat, FetchRun> {
    map r | r in fetches :: fetches[r].(owned := false)
  }

  function Disowned(runs: map<nat, ExtractRun>): map<nat, ExtractRun> {
    map r | r in runs :: runs[r].(owned := false)
  }

  // ---- A request to the API ----

  ghost predicate RequestEnabled(c: Config, s: State, q: RequestStep) {
    match q
    case Receive(call) =>
      && call.filename != "" && |call.content| <= c.apiMax && call.phase.Uploading?
      && IsUuid(call.tenantId) && IsUuid(call.documentId) && IsUuid(call.versionId)
      && call.documentId !in s.issued
    case PutObject(d) => d in s.calls && s.calls[d].phase.Uploading?
    case PutFails(d, _) => d in s.calls && s.calls[d].phase.Uploading?
    case CommitSubmission(d) => d in s.calls && s.calls[d].phase.Stored?
    case CommitAborts(d) => d in s.calls && s.calls[d].phase.Stored?
    case DeleteObject(d) => d in s.calls && s.calls[d].phase.Compensating?
    case LoseCall(d) => d in s.calls
  }

  ghost function RequestNext(c: Config, s: State, now: Time, q: RequestStep): State
    requires RequestEnabled(c, s, q)
  {
    var t := s.(now := now);
    match q
    case Receive(call) => t.(calls := s.calls[call.documentId := call], issued := s.issued + {call.documentId})
    case PutObject(d) =>
      t.(sources := s.sources[KeyFor(s.calls[d]) := s.calls[d].content],
         calls := s.calls[d := s.calls[d].(phase := Stored)])
    case PutFails(d, kept) =>
      t.(sources := if kept then s.sources[KeyFor(s.calls[d]) := s.calls[d].content] else s.sources,
         calls := s.calls - {d})
    case CommitSubmission(d) =>
      var tx := CreateSubmission(s.db, SubmissionFor(c, s.calls[d]), now);
      if tx.Committed? then t.(db := tx.db, calls := s.calls - {d})
      else t.(calls := s.calls[d := s.calls[d].(phase := Compensating)])
    case CommitAborts(d) => t.(calls := s.calls[d := s.calls[d].(phase := Compensating)])
    case DeleteObject(d) => t.(sources := s.sources - {KeyFor(s.calls[d])}, calls := s.calls - {d})
    case LoseCall(d) => t.(calls := s.calls - {d})
  }

  // ---- The handlers of the two consumers ----

  ghost predicate HandlerEnabled(c: Config, s: State, now: Time, h: HandlerStep) {
    match h
    case BeginFetch(r, i, first, owned) =>
      && r !in s.fetches && Readable(s, i) && s.log[i].lane.topic == SubmittedTopic
      && (owned ==> i in s.fetcher.inflight)
      && FetchInputsFor(c, s.sources, EventAt(s, i), first).Some?
    case FinishFetch(r, newId) =>
      r in s.fetches && Readable(s, s.fetches[r].record) && FetchTx(s, r, newId, now).Committed?
    case DropFetch(r) => r in s.fetches
    case BeginExtract(r, i, conversion, owned) =>
      && r !in s.runs && Readable(s, i) && s.log[i].lane.topic == FetchedTopic
      && (owned ==> i in s.extractor.inflight)
      && ExtractOutcomeFor(c, s.sources, EventAt(s, i), conversion).Some?
    case StoreNormalized(r) =>
      && r in s.runs && s.runs[r].outcome.Ok? && s.runs[r].stored == 0
      && Readable(s, s.runs[r].record) && EventAt(s, s.runs[r].record).DocumentFetched?
    case StoreManifest(r) =>
      && r in s.runs && s.runs[r].outcome.Ok? && s.runs[r].stored == 1
      && Readable(s, s.runs[r].record) && EventAt(s, s.runs[r].record).DocumentFetched?
    case FinishExtract(r, newId) =>
      && r in s.runs && (s.runs[r].outcome.Ok? ==> s.runs[r].stored == 2)
      && Readable(s, s.runs[r].record) && FinishTx(c, s, r, newId, now).Committed?
    case DropRun(r) => r in s.runs
  }

  ghost function HandlerNext(c: Config, s: State, now: Time, h: HandlerStep): State
    requires HandlerEnabled(c, s, now, h)
  {
    var t := s.(now := now);
    match h
    case BeginFetch(r, i, first, owned) =>
      t.(fetches := s.fetches[r := FetchRun(i, FetchInputsFor(c, s.sources, EventAt(s, i), first).value, owned)])
    case FinishFetch(r, newId) =>
      var run := s.fetches[r];
      t.(db := FetchTx(s, r, newId, now).db, fetches := s.fetches - {r},
         fetcher := if run.owned && run.record in s.fetcher.inflight then Return(s.fetcher, run.record)
                    else s.fetcher)
    case DropFetch(r) => t.(fetches := s.fetches - {r})
    case BeginExtract(r, i, conversion, owned) =>
      var outcome := ExtractOutcomeFor(c, s.sources, EventAt(s, i), conversion).value;
      t.(runs := s.runs[r := ExtractRun(i, outcome, 0, owned)])
    case StoreNormalized(r) =>
      t.(artifacts := s.artifacts[NormalizedFor(EventAt(s, s.runs[r].record)) :=
                                    Streams.NormalizedOf(s.runs[r].outcome.value)],
         runs := s.runs[r := s.runs[r].(stored := 1)])
    case StoreManifest(r) =>
      var e := EventAt(s, s.runs[r].record);
      t.(artifacts := s.artifacts[ManifestFor(e) := Streams.ManifestOf(s.runs[r].outcome.value, e.contentSha256)],
         runs := s.runs[r := s.runs[r].(stored := 2)])
    case FinishExtract(r, newId) =>
      var run := s.runs[r];
      t.(db := FinishTx(c, s, r, newId, now).db, runs := s.runs - {r},
         extractor := if run.owned && run.record in s.extractor.inflight then Return(s.extractor, run.record)
                      else s.extractor)
    case DropRun(r) => t.(runs := s.runs - {r})
  }

  // ---- The two consumer loops ----

  predicate LoopEnabled(c: Config, s: State, l: LoopStep) {
    match l
    case PollFetcher(i) => CanPoll(Lanes(s.log), SubmittedTopic, 1, s.fetcher, i)
    case CommitFetcher(i) => i in s.fetcher.done && i < |s.log|
    case RestartFetcher => true
    case PollExtractor(i) => CanPoll(Lanes(s.log), FetchedTopic, c.slots, s.extractor, i)
    case CommitExtractor(i) => i in s.extractor.done && i < |s.log|
    case RestartExtractor => true
  }

  function LoopNext(c: Config, s: State, now: Time, l: LoopStep): State
    requires LoopEnabled(c, s, l)
  {
    var t := s.(now := now);
    match l
    case PollFetcher(i) => t.(fetcher := Poll(Lanes(s.log), s.fetcher, i))
    case CommitFetcher(i) => t.(fetcher := Commit(Lanes(s.log), s.fetcher, i))
    case RestartFetcher => t.(fetcher := Restart(s.fetcher), fetches := DisownedFetches(s.fetches))
    case PollExtractor(i) => t.(extractor := Poll(Lanes(s.log), s.extractor, i))
    case CommitExtractor(i) => t.(extractor := Commit(Lanes(s.log), s.extractor, i))
    case RestartExtractor => t.(extractor := Restart(s.extractor), runs := Disowned(s.runs))
  }

  // ---- The whole ----

  ghost predicate Enabled(c: Config, s: State, now: Time, a: Step) {
    match a
    case Requesting(q) => RequestEnabled(c, s, q)
    case Relaying(b) => !b.Insert? && Relay.Enabled(RelayOf(s), now, b)
    case Handling(h) => HandlerEnabled(c, s, now, h)
    case Looping(l) => LoopEnabled(c, s, l)
    case Tick => true
  }

  ghost function Next(c: Config, s: State, now: Time, a: Step): State
    requires Enabled(c, s, now, a)
  {
    match a
    case Requesting(q) => RequestNext(c, s, now, q)
    case Relaying(b) => WithRelay(s.(now := now), Relay.Next(RelayOf(s), now, b))
    case Handling(h) => HandlerNext(c, s, now, h)
    case Looping(l) => LoopNext(c, s, now, l)
    case Tick => s.(now := now)
  }

  ghost predicate Start(c: Config, s: State) {
    && IsBucket(c.bucket) && c.slots >= 1
    && (forall t :: t in s.db.tenants ==> IsUuid(t))
    && s.db == Db(s.db.tenants, map[], map[], {}, [])
    && s == State(s.now, s.db, map[], [], [], map[], map[], {}, map[], map[], map[], FRESH_LOOP,
                  FRESH_LOOP)
  }

  ghost predicate Moves(c: Config, s: State, a: Step, t: State) {
    s.now < t.now && Enabled(c, s, t.now, a) && t == Next(c, s, t.now, a)
  }

  ghost predicate StepAt(c: Config, run: seq<State>, steps: seq<Step>, i: nat)
    requires i < |steps| && |run| == |steps| + 1
  {
    Moves(c, run[i], steps[i], run[i + 1])
  }

  /** A run: the states before, between and after the steps. The clock strictly increases. */
  ghost predicate IsRun(c: Config, run: seq<State>, steps: seq<Step>) {
    && |run| == |steps| + 1
    && Start(c, run[0])
    && forall i :: 0 <= i < |steps| ==> StepAt(c, run, steps, i)
  }
}
