/** What the pipeline guarantees in every state of every run. */
module Guarantees {
  import opened Domain
  import opened Ledger
  import opened Provenance
  import opened SourceKeys
  import opened Pipeline
  import opened PipelineInvariant
  import opened PipelineSteps
  import opened Transactions
  import Consumption
  import Streams
  import Relay

  lemma {:induction false} ReachableInv(c: Config, run: seq<State>, steps: seq<Step>, n: nat)
    requires IsRun(c, run, steps) && n <= |steps|
    ensures Inv(c, run[n])
  {
    if n == 0 {
      StartSatisfiesInv(c, run[0]);
    } else {
      ReachableInv(c, run, steps, n - 1);
      assert StepAt(c, run, steps, n - 1);
      StepKeepsInv(c, run[n - 1], run[n].now, steps[n - 1], run[n]);
    }
  }

  // ---- Topics ----

  /** Every outbox row and every record of the log is on the topic of its own event type: rejections of the fetcher in
      the fetcher's dead letter topic and nowhere else, those of the extractor in the extractor's, and so on. */
  lemma TopicsTellTypes(c: Config, run: seq<State>, steps: seq<Step>, n: nat)
    requires IsRun(c, run, steps) && n <= |steps|
    ensures forall r :: 0 <= r < |run[n].db.outbox| ==>
              IsTopicFor(run[n].db.outbox[r].event, run[n].db.outbox[r].topic)
    ensures forall i: nat :: i < |run[n].log| ==>
              Readable(run[n], i) && IsTopicFor(EventAt(run[n], i), run[n].log[i].lane.topic)
  {
    ReachableInv(c, run, steps, n);
    forall i: nat | i < |run[n].log|
      ensures Readable(run[n], i) && IsTopicFor(EventAt(run[n], i), run[n].log[i].lane.topic)
    {
      TopicTellsType(run[n], i);
    }
  }

  // ---- Cross-stage contract ----

  /** Every record of the document.submitted topic is a DocumentSubmitted event that names exactly one live version. */
  lemma SubmittedRecordsAreKnown(c: Config, run: seq<State>, steps: seq<Step>, n: nat, i: nat)
    requires IsRun(c, run, steps) && n <= |steps|
    requires i < |run[n].log| && run[n].log[i].lane.topic == SubmittedTopic
    ensures Readable(run[n], i)
    ensures var s, e := run[n], EventAt(run[n], i);
            e.DocumentSubmitted? && exists v :: OneSource(s.db, e, v)
  {
    ReachableInv(c, run, steps, n);
    var s, e := run[n], EventAt(run[n], i);
    TopicTellsType(s, i);
    EventIsGrounded(s, i);
    SourceIsKnown(View(s.db), e);
    var v := VersionOf(View(s.db), Doc(e));
    forall w ensures IsSource(s.db, e, w) <==> w == v {
      SourcesAre(s.db, e, w);
    }
    assert OneSource(s.db, e, v);
  }

  /** Every record of the document.fetched topic is a DocumentFetched event, valid and of the PDF type, that names a
      live version row with the same digest and size. */
  lemma FetchedRecordsAreValid(c: Config, run: seq<State>, steps: seq<Step>, n: nat, i: nat)
    requires IsRun(c, run, steps) && n <= |steps|
    requires i < |run[n].log| && run[n].log[i].lane.topic == FetchedTopic
    ensures Readable(run[n], i)
    ensures var s, e := run[n], EventAt(run[n], i);
            && e.DocumentFetched? && e.inspectionStatus == "valid" && e.detectedMimeType == "application/pdf"
            && IsNamed(s.db, e)
            && e.byteSize == s.db.versions[VersionRef(e)].byteSize
            && e.payloadUri == s.db.versions[VersionRef(e)].sourceUri
  {
    ReachableInv(c, run, steps, n);
    TopicTellsType(run[n], i);
    FetchedVersion(c, run[n], i);
  }

  lemma GuardsNeverFire(c: Config, s: State, i: nat, conversion: Streams.Conversion)
    requires TablesInv(s.db) && StoreInv(c, s) && OutcomesInv(c, s) && Relay.LogIsSent(RelayOf(s))
    requires Readable(s, i) && s.log[i].lane.topic == FetchedTopic
    ensures var outcome := ExtractOutcomeFor(c, s.sources, EventAt(s, i), conversion);
            outcome.Some? && outcome.value.Err? ==>
              outcome.value.error in {SourceTooLarge, ConversionFailed, InvalidConverterOutput}
  {
    if ExtractOutcomeFor(c, s.sources, EventAt(s, i), conversion).Some? {
      BeginExtractIsOk(c, s, i, conversion, false);
    }
  }

  /** So the rejections that guard the extractor's input never fire, whatever the converter does: what is left are
      the size limit and the converter's own failures. */
  lemma ExtractorGuardsNeverFire(c: Config, run: seq<State>, steps: seq<Step>, n: nat, i: nat,
                                 conversion: Streams.Conversion)
    requires IsRun(c, run, steps) && n <= |steps|
    requires i < |run[n].log| && run[n].log[i].lane.topic == FetchedTopic
    ensures Readable(run[n], i)
    ensures var outcome := ExtractOutcomeFor(c, run[n].sources, EventAt(run[n], i), conversion);
            outcome.Some? && outcome.value.Err? ==>
              outcome.value.error in {SourceTooLarge, ConversionFailed, InvalidConverterOutput}
  {
    ReachableInv(c, run, steps, n);
    GuardsNeverFire(c, run[n], i, conversion);
  }

  /** Nor does `complete` ever find the version unknown and fall through to `reject`. */
  lemma VersionIsNeverUnknown(c: Config, run: seq<State>, steps: seq<Step>, n: nat, i: nat, status: ExtractionStatus,
                              normalizedUri: string, manifestUri: string, newId: Id, now: Time)
    requires IsRun(c, run, steps) && n <= |steps|
    requires i < |run[n].log| && run[n].log[i].lane.topic == FetchedTopic
    ensures Readable(run[n], i)
    ensures Complete(run[n].db, EventAt(run[n], i), status, normalizedUri, manifestUri, newId, now)
            != Raised(Some(UnknownDocumentVersion))
  {
    FetchedRecordsAreValid(c, run, steps, n, i);
  }

  // ---- Exactly-once effect ----

  predicate IsEffect(s: State, i: nat, key: Key) {
    i < |s.db.outbox| && EffectKey(s.db.outbox[i].event) == Some(key)
  }

  lemma EffectsOfTables(s: State, key: Key)
    requires ExactlyOnce(s.db.processed, View(s.db).events)
    ensures key in s.db.processed <==> exists i: nat :: IsEffect(s, i, key)
    ensures forall i: nat, j: nat :: IsEffect(s, i, key) && IsEffect(s, j, key) ==> i == j
  {
    var events := View(s.db).events;
    assert forall i: nat :: i < |events| ==> events[i] == s.db.outbox[i].event;
    if key in s.db.processed {
      var i :| 0 <= i < |events| && EffectKey(events[i]) == Some(key);
      assert IsEffect(s, i, key);
    }
  }

  /** A key is recorded as processed if and only if an outbox row is its effect, and then exactly one is. */
  lemma ExactlyOnceEffect(c: Config, run: seq<State>, steps: seq<Step>, n: nat, key: Key)
    requires IsRun(c, run, steps) && n <= |steps|
    ensures key in run[n].db.processed <==> exists i: nat :: IsEffect(run[n], i, key)
    ensures forall i: nat, j: nat :: IsEffect(run[n], i, key) && IsEffect(run[n], j, key) ==> i == j
  {
    ReachableInv(c, run, steps, n);
    EffectsOfTables(run[n], key);
  }

  // ---- Conservation, statuses and the causal chain ----

  /** The laws of `Provenance` hold of the tables of every state. */
  lemma TablesAreSound(c: Config, run: seq<State>, steps: seq<Step>, n: nat)
    requires IsRun(c, run, steps) && n <= |steps|
    ensures Lineage(View(run[n].db)) && Statuses(View(run[n].db))
  {
    ReachableInv(c, run, steps, n);
  }

  lemma ConservationInRuns(c: Config, run: seq<State>, steps: seq<Step>, n: nat, d: Ref)
    requires IsRun(c, run, steps) && n <= |steps| && d in run[n].db.documents
    ensures var f := View(run[n].db);
            && (exists r: nat :: Has(f, d, r) && f.events[r].DocumentSubmitted?
                                 && forall i: nat :: Has(f, d, i) && f.events[i].DocumentSubmitted? ==> i == r)
            && (forall i: nat, j: nat | Has(f, d, i) && Has(f, d, j)
                                        && IsFetchOutcome(f.events[i]) && IsFetchOutcome(f.events[j]) :: i == j)
            && (forall i: nat, j: nat | Has(f, d, i) && Has(f, d, j)
                                        && IsExtractOutcome(f.events[i]) && IsExtractOutcome(f.events[j]) :: i == j)
            && ((exists i: nat :: Has(f, d, i) && IsExtractOutcome(f.events[i])) ==> HasFetched(f, d))
  {
    TablesAreSound(c, run, steps, n);
    Conservation(View(run[n].db), d);
  }

  /** A document is `extracted` if and only if the extraction status of its version is `succeeded`, if and only if
      its ContentExtracted event with that status is stored. */
  lemma ExtractedIffSucceeded(c: Config, run: seq<State>, steps: seq<Step>, n: nat, d: Ref)
    requires IsRun(c, run, steps) && n <= |steps| && d in run[n].db.documents
    ensures var f := View(run[n].db);
            && Known(f, d)
            && (f.documents[d].status.StatusExtracted? <==> f.versions[VersionOf(f, d)].extraction.Succeeded?)
            && (f.documents[d].status.StatusExtracted? <==> HasExtracted(f, d, Succeeded))
  {
    TablesAreSound(c, run, steps, n);
    StatusIsFunctionOfEvents(View(run[n].db), d);
  }

  lemma CausalChainInRuns(c: Config, run: seq<State>, steps: seq<Step>, n: nat, i: nat) returns (chain: seq<nat>)
    requires IsRun(c, run, steps) && n <= |steps| && i < |run[n].db.outbox|
    ensures 1 <= |chain| <= 3 && chain[0] == i
    ensures forall k :: 0 <= k < |chain| ==> chain[k] < |run[n].db.outbox|
    ensures var events := Events(run[n].db.outbox);
            var root := events[chain[|chain| - 1]];
            && root.DocumentSubmitted? && root.causationId.None?
            && (forall k :: 0 <= k < |chain| - 1 ==> events[chain[k]].causationId == Some(events[chain[k + 1]].eventId))
            && (forall k :: 0 <= k < |chain| ==> Doc(events[chain[k]]) == Doc(root)
                                                 && events[chain[k]].correlationId == root.eventId)
  {
    TablesAreSound(c, run, steps, n);
    chain := CausalChain(View(run[n].db), i);
  }

  // ---- Lifecycle ----

  /** submitted, then fetched or failed, then extracted or failed. */
  predicate Later(a: DocumentStatus, b: DocumentStatus) {
    a == b || a.StatusSubmitted? || (a.StatusFetched? && !b.StatusSubmitted?)
  }

  predicate Advances(a: Db, b: Db, d: Ref) {
    d in a.documents ==> d in b.documents && Forward(a.documents[d].status, b.documents[d].status)
  }

  lemma ForwardAdvances(a: Db, b: Db, d: Ref)
    requires MovesForward(View(a), View(b))
    ensures Advances(a, b, d)
  {
    if d in a.documents {
      assert d in View(a).documents;
    }
  }

  lemma SubmissionAdvances(db: Db, sub: Submission, now: Time, d: Ref)
    requires CreateSubmission(db, sub, now).Committed?
    ensures Advances(db, CreateSubmission(db, sub, now).db, d)
  {
  }

  lemma RequestAdvances(c: Config, s: State, now: Time, q: RequestStep, t: State, d: Ref)
    requires RequestEnabled(c, s, q) && t == RequestNext(c, s, now, q)
    ensures Advances(s.db, t.db, d)
  {
    if q.CommitSubmission? && t.db != s.db {
      SubmissionAdvances(s.db, SubmissionFor(c, s.calls[q.d]), now, d);
    }
  }

  lemma FetchAdvancesStatus(c: Config, s: State, now: Time, h: HandlerStep, t: State, d: Ref)
    requires TablesInv(s.db) && RunsInv(c, s) && s.now < now && h.FinishFetch?
    requires HandlerEnabled(c, s, now, h) && t == HandlerNext(c, s, now, h)
    ensures Advances(s.db, t.db, d)
  {
    FinishFetchFrame(c, s, now, h, t);
    FetchTxKeepsTables(c, s, h.r, h.newId, now, t.db);
    ForwardAdvances(s.db, t.db, d);
  }

  lemma ExtractAdvancesStatus(c: Config, s: State, now: Time, h: HandlerStep, t: State, d: Ref)
    requires TablesInv(s.db) && RunsInv(c, s) && s.now < now && h.FinishExtract?
    requires HandlerEnabled(c, s, now, h) && t == HandlerNext(c, s, now, h)
    ensures Advances(s.db, t.db, d)
  {
    FinishExtractFrame(c, s, now, h, t);
    FinishTxKeepsTables(c, s, h.r, h.newId, now, t.db);
    ForwardAdvances(s.db, t.db, d);
  }

  lemma HandlerAdvances(c: Config, s: State, now: Time, h: HandlerStep, t: State, d: Ref)
    requires TablesInv(s.db) && RunsInv(c, s)
    requires s.now < now && HandlerEnabled(c, s, now, h) && t == HandlerNext(c, s, now, h)
    ensures Advances(s.db, t.db, d)
  {
    if h.FinishFetch? {
      FetchAdvancesStatus(c, s, now, h, t, d);
    } else if h.FinishExtract? {
      ExtractAdvancesStatus(c, s, now, h, t, d);
    }
  }

  lemma LoopKeepsDocuments(c: Config, s: State, now: Time, l: LoopStep)
    requires LoopEnabled(c, s, l)
    ensures LoopNext(c, s, now, l).db == s.db && LoopNext(c, s, now, l).now == now
  {
  }

  lemma RelayKeepsDocuments(s: State, r: Relay.State)
    ensures WithRelay(s, r).db.documents == s.db.documents
  {
  }

  lemma OtherAdvances(c: Config, s: State, now: Time, a: Step, t: State, d: Ref)
    requires !a.Requesting? && !a.Handling? && Enabled(c, s, now, a) && t == Next(c, s, now, a)
    ensures Advances(s.db, t.db, d)
  {
    match a
    case Relaying(b) => RelayKeepsDocuments(s.(now := now), Relay.Next(RelayOf(s), now, b));
    case Looping(l) => LoopKeepsDocuments(c, s, now, l);
    case Tick =>
  }

  lemma StepAdvances(c: Config, s: State, now: Time, a: Step, t: State, d: Ref)
    requires TablesInv(s.db) && RunsInv(c, s)
    requires s.now < now && Enabled(c, s, now, a) && t == Next(c, s, now, a)
    ensures Advances(s.db, t.db, d)
  {
    if a.Requesting? {
      RequestAdvances(c, s, now, a.q, t, d);
    } else if a.Handling? {
      HandlerAdvances(c, s, now, a.h, t, d);
    } else {
      OtherAdvances(c, s, now, a, t, d);
    }
  }

  lemma RunAdvances(c: Config, run: seq<State>, steps: seq<Step>, n: nat, d: Ref)
    requires IsRun(c, run, steps) && n < |steps|
    ensures Advances(run[n].db, run[n + 1].db, d)
  {
    ReachableInv(c, run, steps, n);
    assert StepAt(c, run, steps, n);
    StepAdvances(c, run[n], run[n + 1].now, steps[n], run[n + 1], d);
  }

  /** Over any stretch of a run a document never disappears and its status never moves back. */
  lemma {:induction false} LifecycleForward(c: Config, run: seq<State>, steps: seq<Step>, i: nat, j: nat, d: Ref)
    requires IsRun(c, run, steps) && i <= j <= |steps| && d in run[i].db.documents
    ensures d in run[j].db.documents
    ensures Later(run[i].db.documents[d].status, run[j].db.documents[d].status)
    decreases j
  {
    if i < j {
      LifecycleForward(c, run, steps, i, j - 1, d);
      RunAdvances(c, run, steps, j - 1, d);
    }
  }

  // ---- Sources ----

  /** Each committed version names a stored object, under its own tenant and document, whose bytes have the digest
      and the size of the row. */
  lemma SourceIntegrity(c: Config, run: seq<State>, steps: seq<Step>, n: nat, v: Ref)
    requires IsRun(c, run, steps) && n <= |steps| && v in run[n].db.versions
    ensures var row, sources := run[n].db.versions[v], run[n].sources;
            exists key :: key in sources && row.sourceUri == "s3://" + c.bucket + "/" + key
                          && v.0 + "/" + row.documentId + "/original/" <= key
                          && c.sha(sources[key]) == row.contentSha256 && |sources[key]| == row.byteSize
  {
    ReachableInv(c, run, steps, n);
    assert SourceStored(c, run[n].sources, v, run[n].db.versions[v]);
  }

  /** A compensating delete never removes an object that a committed row references. */
  lemma DeleteSparesVersions(c: Config, run: seq<State>, steps: seq<Step>, n: nat, d: Id, v: Ref)
    requires IsRun(c, run, steps) && n < |steps| && steps[n] == Requesting(DeleteObject(d))
    requires v in run[n].db.versions
    ensures d in run[n].calls
    ensures KeyFor(run[n].calls[d]) != KeyIn(c.bucket, run[n].db.versions[v].sourceUri)
  {
    ReachableInv(c, run, steps, n);
    assert StepAt(c, run, steps, n);
    CallsAvoidVersions(c, run[n], d, v);
  }

  lemma StepKeepsVersion(c: Config, run: seq<State>, steps: seq<Step>, n: nat, v: Ref)
    requires IsRun(c, run, steps) && n < |steps| && v in run[n].db.versions
    ensures v in run[n + 1].db.versions && SameSource(run[n].db.versions[v], run[n + 1].db.versions[v])
    ensures BytesOf(c, run[n + 1].sources, run[n + 1].db.versions[v])
            == BytesOf(c, run[n].sources, run[n].db.versions[v])
  {
    ReachableInv(c, run, steps, n);
    assert StepAt(c, run, steps, n);
    StepKeepsInv(c, run[n], run[n + 1].now, steps[n], run[n + 1]);
    VersionStays(c, run[n], run[n + 1], v);
  }

  /** From its commit on, a version and the bytes it names never change. */
  lemma {:induction false} SourceIsImmutable(c: Config, run: seq<State>, steps: seq<Step>, i: nat, j: nat, v: Ref)
    requires IsRun(c, run, steps) && i <= j <= |steps| && v in run[i].db.versions
    ensures v in run[j].db.versions && SameSource(run[i].db.versions[v], run[j].db.versions[v])
    ensures BytesOf(c, run[j].sources, run[j].db.versions[v]) == BytesOf(c, run[i].sources, run[i].db.versions[v])
    decreases j
  {
    if i < j {
      SourceIsImmutable(c, run, steps, i, j - 1, v);
      StepKeepsVersion(c, run, steps, j - 1, v);
    }
  }

  /** `get` of a committed version returns exactly the submitted bytes, or raises; it raises if and only if the file
      name in the key has a character that breaks the URI. */
  lemma GetReturnsSubmittedBytes(c: Config, run: seq<State>, steps: seq<Step>, n: nat, v: Ref)
    requires IsRun(c, run, steps) && n <= |steps| && v in run[n].db.versions
    ensures |KeyIn(c.bucket, run[n].db.versions[v].sourceUri)| >= PREFIX_LENGTH
    ensures var row := run[n].db.versions[v];
            var content := ReadSource(c, run[n].sources, row.sourceUri);
            && (content.Some? <==> forall ch :: ch in KeyIn(c.bucket, row.sourceUri)[PREFIX_LENGTH..] ==> !Breaking(ch))
            && (content.Some? ==> c.sha(content.value) == row.contentSha256 && |content.value| == row.byteSize)
  {
    ReachableInv(c, run, steps, n);
    assert SourceStored(c, run[n].sources, v, run[n].db.versions[v]);
    PrefixIsPlain(v.0, run[n].db.versions[v].documentId);
    ReadsOwnObject(c, run[n], v);
  }

  // ---- Limits ----

  lemma StoredOutcome(c: Config, run: seq<State>, steps: seq<Step>, n: nat, i: nat)
    requires IsRun(c, run, steps) && n <= |steps| && i < |run[n].db.outbox|
    ensures EventOk(c, run[n], run[n].db.outbox[i].event)
    ensures forall v :: v in run[n].db.versions ==> run[n].db.versions[v].byteSize <= c.apiMax
  {
    ReachableInv(c, run, steps, n);
    forall v | v in run[n].db.versions ensures run[n].db.versions[v].byteSize <= c.apiMax {
      assert SourceStored(c, run[n].sources, v, run[n].db.versions[v]);
    }
  }

  /** Why a fetch of bytes `content` was rejected: each code says what the document is. A missing signature may also be
      a first read of fewer than five bytes, and nothing is said of it. */
  predicate RejectedFor(c: Config, row: VersionRow, content: Bytes, error: FetchError) {
    var bounded := |content| >= 5 && content[..5] == [0x25, 0x50, 0x44, 0x46, 0x2D] && |content| <= c.fetcherMax;
    match error
    case InvalidPdfSignature => true
    case DocumentTooLarge => |content| > c.fetcherMax && c.apiMax > c.fetcherMax && c.fetcherMax >= 4
    case EncryptedPdf => bounded && c.parse(content) == Streams.Encrypted
    case CorruptPdf => bounded && c.parse(content) == Streams.Unreadable
    case DeclaredMimeMismatch =>
      bounded && c.parse(content).Pages? && row.mimeType !in {"application/pdf", "application/octet-stream"}
    case _ => false
  }

  /** A fetch is only ever rejected for what the document is: never for an unknown object, a foreign event or a
      different checksum, and for its size only if the API accepts more than the fetcher. */
  lemma FetchRejections(c: Config, run: seq<State>, steps: seq<Step>, n: nat, i: nat)
    requires IsRun(c, run, steps) && n <= |steps| && i < |run[n].db.outbox|
    requires run[n].db.outbox[i].event.DocumentFetchRejected?
    ensures var e, f := run[n].db.outbox[i].event, View(run[n].db);
            && Known(f, Doc(e))
            && var row := run[n].db.versions[VersionOf(f, Doc(e))];
               RejectedFor(c, row, BytesOf(c, run[n].sources, row), e.fetchError)
  {
    StoredOutcome(c, run, steps, n, i);
    StoredBytes(c, run, steps, n, VersionOf(View(run[n].db), Doc(run[n].db.outbox[i].event)));
  }

  /** An extraction is only ever rejected by the converter, or for its size if the fetcher accepts more than the
      extractor. */
  lemma ExtractionRejections(c: Config, run: seq<State>, steps: seq<Step>, n: nat, i: nat)
    requires IsRun(c, run, steps) && n <= |steps| && i < |run[n].db.outbox|
    requires run[n].db.outbox[i].event.ContentExtractionRejected?
    ensures var e := run[n].db.outbox[i].event;
            && VersionRef(e) in run[n].db.versions
            && var content := BytesOf(c, run[n].sources, run[n].db.versions[VersionRef(e)]);
               && e.extractError in {ConversionFailed, InvalidConverterOutput, SourceTooLarge}
               && (e.extractError == SourceTooLarge <==> |content| > c.extractMax)
               && (e.extractError == SourceTooLarge ==> c.apiMax > c.extractMax && c.fetcherMax > c.extractMax)
  {
    StoredOutcome(c, run, steps, n, i);
    FetchedHadPassed(c, run, steps, n, i);
  }

  /** The bytes of an extracted document, or one whose extraction was rejected, had passed the fetcher. */
  lemma FetchedHadPassed(c: Config, run: seq<State>, steps: seq<Step>, n: nat, i: nat)
    requires IsRun(c, run, steps) && n <= |steps| && i < |run[n].db.outbox|
    requires IsExtractOutcome(run[n].db.outbox[i].event)
    ensures VersionRef(run[n].db.outbox[i].event) in run[n].db.versions
    ensures var row := run[n].db.versions[VersionRef(run[n].db.outbox[i].event)];
            var content := BytesOf(c, run[n].sources, row);
            && Passed(c, row, content) && |content| == row.byteSize <= c.apiMax
            && c.sha(content) == row.contentSha256
  {
    TablesAreSound(c, run, steps, n);
    var events := View(run[n].db).events;
    assert events[i] == run[n].db.outbox[i].event;
    assert HasParent(events, events[i]);
    var j: nat :| Parented(events, events[i], j);
    assert events[j] == run[n].db.outbox[j].event;
    StoredOutcome(c, run, steps, n, j);
    StoredBytes(c, run, steps, n, VersionRef(events[i]));
  }

  lemma StoredBytes(c: Config, run: seq<State>, steps: seq<Step>, n: nat, v: Ref)
    requires IsRun(c, run, steps) && n <= |steps| && v in run[n].db.versions
    ensures var row := run[n].db.versions[v];
            var content := BytesOf(c, run[n].sources, row);
            |content| == row.byteSize <= c.apiMax && c.sha(content) == row.contentSha256
  {
    ReachableInv(c, run, steps, n);
    assert SourceStored(c, run[n].sources, v, run[n].db.versions[v]);
  }

  /** Limits compose: with api_max <= fetcher_max <= extraction_max no stage ever rejects a document for its size,
      for being empty or for its checksum. */
  lemma LimitsCompose(c: Config, run: seq<State>, steps: seq<Step>, n: nat, i: nat)
    requires IsRun(c, run, steps) && n <= |steps| && i < |run[n].db.outbox|
    requires c.apiMax <= c.fetcherMax <= c.extractMax
    ensures match run[n].db.outbox[i].event
            case DocumentFetchRejected(_, _, _, _, _, _, error) => error !in {DocumentTooLarge, FetchChecksumMismatch}
            case ContentExtractionRejected(_, _, _, _, _, _, error) =>
              error !in {SourceTooLarge, EmptySource, SourceChecksumMismatch}
            case _ => true
  {
    if run[n].db.outbox[i].event.DocumentFetchRejected? {
      FetchRejections(c, run, steps, n, i);
    } else if run[n].db.outbox[i].event.ContentExtractionRejected? {
      ExtractionRejections(c, run, steps, n, i);
    }
  }

  // ---- Artifacts ----

  /** A version row that references its artifacts has both of them in the bucket, under its own prefix. */
  lemma WriteBeforeReference(c: Config, run: seq<State>, steps: seq<Step>, n: nat, v: Ref)
    requires IsRun(c, run, steps) && n <= |steps| && v in run[n].db.versions
    ensures var row := run[n].db.versions[v];
            var normalized := v.0 + "/" + v.1 + "/extracted/" + row.contentSha256 + "/normalized.json";
            var manifest := v.0 + "/" + v.1 + "/extracted/" + row.contentSha256 + "/manifest.json";
            row.normalizedUri.Some? ==>
              && row.normalizedUri == Some("s3://" + c.artifactBucket + "/" + normalized)
              && row.manifestUri == Some("s3://" + c.artifactBucket + "/" + manifest)
              && normalized in run[n].artifacts && manifest in run[n].artifacts
              && normalized == NormalizedKey(v.0, v.1, row.contentSha256)
              && manifest == ManifestKey(v.0, v.1, row.contentSha256)
  {
    ReachableInv(c, run, steps, n);
    assert ReferenceOk(c, run[n].artifacts.Keys, v, run[n].db.versions[v]);
  }

  lemma VersionIds(c: Config, run: seq<State>, steps: seq<Step>, n: nat, v: Ref)
    requires IsRun(c, run, steps) && n <= |steps| && v in run[n].db.versions
    ensures IsUuid(v.0) && IsUuid(v.1)
  {
    ReachableInv(c, run, steps, n);
    assert SourceStored(c, run[n].sources, v, run[n].db.versions[v]);
  }

  /** No two version rows can write or reference the same artifact. */
  lemma ArtifactsAreNotShared(c: Config, run: seq<State>, steps: seq<Step>, n: nat, v: Ref, w: Ref)
    requires IsRun(c, run, steps) && n <= |steps| && v in run[n].db.versions && w in run[n].db.versions && v != w
    ensures var a, b := run[n].db.versions[v].contentSha256, run[n].db.versions[w].contentSha256;
            {NormalizedKey(v.0, v.1, a), ManifestKey(v.0, v.1, a)}
            !! {NormalizedKey(w.0, w.1, b), ManifestKey(w.0, w.1, b)}
  {
    var a, b := run[n].db.versions[v].contentSha256, run[n].db.versions[w].contentSha256;
    VersionIds(c, run, steps, n, v);
    VersionIds(c, run, steps, n, w);
    ArtifactKeysDisjoint(v.0, v.1, a, w.0, w.1, b);
    ArtifactKeysDisjoint(w.0, w.1, b, v.0, v.1, a);
  }

  // ---- Offsets ----

  /** Every record of the document.submitted topic below the committed offset of its partition is processed. */
  lemma FetcherOffsetsAreSafe(c: Config, run: seq<State>, steps: seq<Step>, n: nat, i: nat)
    requires IsRun(c, run, steps) && n <= |steps|
    requires i < |run[n].log| && run[n].log[i].lane.topic == SubmittedTopic
    requires i < Consumption.At(run[n].fetcher.committed, run[n].log[i].lane.partition)
    ensures Readable(run[n], i) && FetchKey(EventAt(run[n], i)) in run[n].db.processed
  {
    ReachableInv(c, run, steps, n);
    assert Lanes(run[n].log)[i] == run[n].log[i].lane;
    assert i in HandledBy(run[n], DocumentFetcher);
  }

  /** The same for the document.fetched topic when the extractor has one slot. */
  lemma ExtractorOffsetsAreSafe(c: Config, run: seq<State>, steps: seq<Step>, n: nat, i: nat)
    requires IsRun(c, run, steps) && n <= |steps| && c.slots == 1
    requires i < |run[n].log| && run[n].log[i].lane.topic == FetchedTopic
    requires i < Consumption.At(run[n].extractor.committed, run[n].log[i].lane.partition)
    ensures Readable(run[n], i) && ExtractKey(EventAt(run[n], i)) in run[n].db.processed
  {
    ReachableInv(c, run, steps, n);
    assert Lanes(run[n].log)[i] == run[n].log[i].lane;
    assert i in HandledBy(run[n], ContentExtractor);
  }
}
