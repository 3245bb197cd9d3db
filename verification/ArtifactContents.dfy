/** What the stored artifacts hold, in every state of every run: a committed extraction and its two objects come from
    the version's own bytes, and they agree for ever if the converter is a function of those bytes. */
module ArtifactContents {
  import opened Domain
  import opened Ledger
  import opened Provenance
  import opened SourceKeys
  import opened Pipeline
  import opened PipelineInvariant
  import opened PipelineSteps
  import opened Guarantees
  import opened Reachability
  import opened Ingestion
  import JsonTree
  import Relay
  import Streams

  predicate Gives(c: Config, may: Converter, content: Bytes, conversion: Streams.Conversion,
                  result: Streams.ExtractionResult)
  {
    && Passes(c, content) && may(content, conversion)
    && Streams.Extract(content, c.extractMax, c.sha(content), c.sha, conversion) == Streams.Extracted(result)
  }

  /** `result` is what an extraction of `content`, which passed the fetcher, can end in. */
  ghost predicate Possible(c: Config, may: Converter, content: Bytes, result: Streams.ExtractionResult) {
    exists conversion :: Gives(c, may, content, conversion, result)
  }

  ghost predicate IsNormalized(c: Config, may: Converter, content: Bytes, artifact: Streams.Artifact) {
    exists result :: Possible(c, may, content, result) && artifact == Streams.NormalizedOf(result)
  }

  ghost predicate IsManifest(c: Config, may: Converter, content: Bytes, sha: string, artifact: Streams.Artifact) {
    exists result :: Possible(c, may, content, result) && artifact == Streams.ManifestOf(result, sha)
  }

  ghost predicate IsStatus(c: Config, may: Converter, content: Bytes, status: ExtractionStatus) {
    exists result :: Possible(c, may, content, result) && status == result.status
  }

  /** The object under `key` is one of the two artifacts of version `v`. */
  ghost predicate IsArtifact(c: Config, may: Converter, v: Ref, row: VersionRow, content: Bytes, key: string,
                             artifact: Streams.Artifact)
  {
    || (key == NormalizedKey(v.0, v.1, row.contentSha256) && IsNormalized(c, may, content, artifact))
    || (key == ManifestKey(v.0, v.1, row.contentSha256) && IsManifest(c, may, content, row.contentSha256, artifact))
  }

  ghost predicate ArtifactOk(c: Config, may: Converter, s: State, key: string, artifact: Streams.Artifact) {
    exists v :: v in s.db.versions
                && IsArtifact(c, may, v, s.db.versions[v], BytesOf(c, s.sources, s.db.versions[v]), key, artifact)
  }

  ghost predicate RunOk(c: Config, may: Converter, s: State, run: ExtractRun) {
    run.outcome.Ok? ==>
      && Readable(s, run.record) && EventAt(s, run.record).DocumentFetched?
      && VersionRef(EventAt(s, run.record)) in s.db.versions
      && var row := s.db.versions[VersionRef(EventAt(s, run.record))];
         && row.contentSha256 == EventAt(s, run.record).contentSha256
         && Possible(c, may, BytesOf(c, s.sources, row), run.outcome.value)
  }

  predicate Converted(status: ExtractionStatus) {
    status.Succeeded? || status.NeedsReview?
  }

  ghost predicate RowOk(c: Config, may: Converter, s: State, v: Ref)
    requires v in s.db.versions
  {
    var row := s.db.versions[v];
    Converted(row.extraction) ==>
      row.normalizedUri.Some? && IsStatus(c, may, BytesOf(c, s.sources, row), row.extraction)
  }

  ghost predicate ContentsInv(c: Config, may: Converter, s: State) {
    && (forall r :: r in s.runs ==> RunOk(c, may, s, s.runs[r]))
    && (forall k :: k in s.artifacts ==> ArtifactOk(c, may, s, k, s.artifacts[k]))
    && (forall v :: v in s.db.versions ==> RowOk(c, may, s, v))
  }

  // ---- What steps keep ----

  lemma RunStays(c: Config, may: Converter, s: State, t: State, run: ExtractRun, after: ExtractRun)
    requires Kept(c, s, t) && RunOk(c, may, s, run)
    requires after.record == run.record && after.outcome == run.outcome
    ensures RunOk(c, may, t, after)
  {
    if run.outcome.Ok? {
      EventStays(c, s, t, run.record);
      VersionStays(c, s, t, VersionRef(EventAt(s, run.record)));
    }
  }

  lemma ArtifactStays(c: Config, may: Converter, s: State, t: State, key: string, artifact: Streams.Artifact)
    requires Kept(c, s, t) && ArtifactOk(c, may, s, key, artifact)
    ensures ArtifactOk(c, may, t, key, artifact)
  {
    var v :| v in s.db.versions
             && IsArtifact(c, may, v, s.db.versions[v], BytesOf(c, s.sources, s.db.versions[v]), key, artifact);
    VersionStays(c, s, t, v);
    assert IsArtifact(c, may, v, t.db.versions[v], BytesOf(c, t.sources, t.db.versions[v]), key, artifact);
  }

  predicate SameRun(s: State, r: nat, run: ExtractRun) {
    r in s.runs && run.record == s.runs[r].record && run.outcome == s.runs[r].outcome
  }

  predicate SameRow(s: State, v: Ref, row: VersionRow) {
    && v in s.db.versions && row.extraction == s.db.versions[v].extraction
    && row.normalizedUri == s.db.versions[v].normalizedUri
  }

  predicate SameArtifact(s: State, k: string, artifact: Streams.Artifact) {
    k in s.artifacts && s.artifacts[k] == artifact
  }

  /** It is enough to look at the run, the artifact or the row that the step wrote. */
  lemma ContentsStay(c: Config, may: Converter, s: State, t: State)
    requires Kept(c, s, t) && ContentsInv(c, may, s)
    requires forall r :: r in t.runs ==> SameRun(s, r, t.runs[r]) || RunOk(c, may, t, t.runs[r])
    requires forall k :: k in t.artifacts ==> SameArtifact(s, k, t.artifacts[k])
                                              || ArtifactOk(c, may, t, k, t.artifacts[k])
    requires forall v :: v in t.db.versions ==> SameRow(s, v, t.db.versions[v]) || RowOk(c, may, t, v)
    ensures ContentsInv(c, may, t)
  {
    forall r | r in t.runs ensures RunOk(c, may, t, t.runs[r]) {
      if SameRun(s, r, t.runs[r]) {
        RunStays(c, may, s, t, s.runs[r], t.runs[r]);
      }
    }
    forall k | k in t.artifacts ensures ArtifactOk(c, may, t, k, t.artifacts[k]) {
      if SameArtifact(s, k, t.artifacts[k]) {
        ArtifactStays(c, may, s, t, k, t.artifacts[k]);
      }
    }
    forall v | v in t.db.versions ensures RowOk(c, may, t, v) {
      if SameRow(s, v, t.db.versions[v]) {
        assert RowOk(c, may, s, v);
        VersionStays(c, s, t, v);
      }
    }
  }

  /** Steps that write neither a version row nor an artifact, and begin no extraction. */
  lemma QuietStep(c: Config, may: Converter, s: State, t: State)
    requires Kept(c, s, t) && ContentsInv(c, may, s) && t.artifacts == s.artifacts
    requires t.db.versions == s.db.versions
    requires forall r :: r in t.runs ==> SameRun(s, r, t.runs[r])
    ensures ContentsInv(c, may, t)
  {
    ContentsStay(c, may, s, t);
  }

  // ---- Requests ----

  lemma RequestFrame(c: Config, s: State, now: Time, q: RequestStep, t: State)
    requires RequestEnabled(c, s, q) && t == RequestNext(c, s, now, q)
    ensures t.artifacts == s.artifacts && t.runs == s.runs
    ensures t.db == s.db
            || (q.CommitSubmission? && q.d in s.calls
                && CreateSubmission(s.db, SubmissionFor(c, s.calls[q.d]), now).Committed?
                && t.db == CreateSubmission(s.db, SubmissionFor(c, s.calls[q.d]), now).db)
  {
  }

  lemma RequestKeepsContents(c: Config, may: Converter, s: State, now: Time, q: RequestStep, t: State)
    requires Kept(c, s, t) && ContentsInv(c, may, s) && StoreInv(c, s) && Lineage(View(s.db))
    requires RequestEnabled(c, s, q) && t == RequestNext(c, s, now, q)
    ensures ContentsInv(c, may, t)
  {
    RequestFrame(c, s, now, q, t);
    if t.db != s.db {
      CommitKeepsContents(c, may, s, t, SubmissionFor(c, s.calls[q.d]), now, q.d);
    } else {
      QuietStep(c, may, s, t);
    }
  }

  lemma VersionAdded(c: Config, may: Converter, s: State, t: State, sub: Submission)
    requires Kept(c, s, t) && ContentsInv(c, may, s) && t.artifacts == s.artifacts && t.runs == s.runs
    requires t.db.versions == s.db.versions[(sub.tenantId, sub.versionId) := NewVersion(sub)]
    ensures ContentsInv(c, may, t)
  {
    ContentsStay(c, may, s, t);
  }

  lemma CommitKeepsContents(c: Config, may: Converter, s: State, t: State, sub: Submission, now: Time, d: Id)
    requires Kept(c, s, t) && ContentsInv(c, may, s) && StoreInv(c, s) && Lineage(View(s.db))
    requires d in s.calls && sub == SubmissionFor(c, s.calls[d]) && t.artifacts == s.artifacts && t.runs == s.runs
    requires CreateSubmission(s.db, sub, now).Committed? && t.db == CreateSubmission(s.db, sub, now).db
    ensures ContentsInv(c, may, t)
  {
    SubmissionWellFormed(c, s, d);
    SubmissionFacts(s.db, sub, now);
    assert t.db.versions == View(t.db).versions;
    VersionAdded(c, may, s, t, sub);
  }

  // ---- Handlers ----

  lemma FetchKeepsContents(c: Config, may: Converter, s: State, t: State, e: Event, inputs: FetchInputs, newId: Id)
    requires Kept(c, s, t) && ContentsInv(c, may, s) && FetchStores(s.db, e, inputs, newId, t.db)
    requires t.artifacts == s.artifacts && t.runs == s.runs
    ensures ContentsInv(c, may, t)
  {
    forall v | v in t.db.versions ensures SameRow(s, v, t.db.versions[v]) {
      if t.db != s.db {
        assert v in View(t.db).versions;
      }
    }
    ContentsStay(c, may, s, t);
  }

  lemma FinishKeepsContents(c: Config, may: Converter, s: State, t: State, run: ExtractRun, newId: Id)
    requires Kept(c, s, t) && ContentsInv(c, may, s) && RunOk(c, may, s, run)
    requires Readable(s, run.record) && EventAt(s, run.record).DocumentFetched?
    requires var e := EventAt(s, run.record);
             ExtractStores(s.db, e, Report(run.outcome), NormalizedUriFor(c, e), ManifestUriFor(c, e), newId, t.db)
    requires t.artifacts == s.artifacts && forall r :: r in t.runs ==> SameRun(s, r, t.runs[r])
    ensures ContentsInv(c, may, t)
  {
    var w := VersionRef(EventAt(s, run.record));
    forall v | v in t.db.versions ensures SameRow(s, v, t.db.versions[v]) || RowOk(c, may, t, v) {
      if t.db != s.db {
        assert v in View(t.db).versions;
        if v == w {
          VersionStays(c, s, t, w);
        }
      }
    }
    ContentsStay(c, may, s, t);
  }

  /** The source that an extraction reads, if `get` returns it, is that of the version the record names. */
  lemma ReadsItsVersion(c: Config, s: State, i: nat)
    requires TablesInv(s.db) && StoreInv(c, s) && OutcomesInv(c, s) && Readable(s, i) && EventAt(s, i).DocumentFetched?
    ensures var e := EventAt(s, i);
            && VersionRef(e) in s.db.versions && s.db.versions[VersionRef(e)].contentSha256 == e.contentSha256
            && var content := BytesOf(c, s.sources, s.db.versions[VersionRef(e)]);
               && Passes(c, content) && c.sha(content) == e.contentSha256
               && ReadSource(c, s.sources, e.payloadUri) in {None, Some(content)}
  {
    FetchedVersion(c, s, i);
    var v := VersionRef(EventAt(s, i));
    assert SourceStored(c, s.sources, v, s.db.versions[v]);
    ReadsOwnObject(c, s, v);
  }

  lemma OutcomeOfContent(c: Config, sources: map<string, Bytes>, e: Event, conversion: Streams.Conversion)
    requires e.DocumentFetched? && ExtractOutcomeFor(c, sources, e, conversion).Some?
    requires ExtractOutcomeFor(c, sources, e, conversion).value.Ok?
    ensures ReadSource(c, sources, e.payloadUri).Some?
    ensures var content := ReadSource(c, sources, e.payloadUri).value;
            Streams.Extract(content, c.extractMax, e.contentSha256, c.sha, conversion)
            == Streams.Extracted(ExtractOutcomeFor(c, sources, e, conversion).value.value)
  {
  }

  lemma BegunIsOk(c: Config, may: Converter, s: State, i: nat, conversion: Streams.Conversion, owned: bool)
    requires TablesInv(s.db) && StoreInv(c, s) && OutcomesInv(c, s)
    requires Readable(s, i) && EventAt(s, i).DocumentFetched?
    requires ExtractOutcomeFor(c, s.sources, EventAt(s, i), conversion).Some?
    requires var content := ReadSource(c, s.sources, EventAt(s, i).payloadUri);
             content.Some? ==> may(content.value, conversion)
    ensures RunOk(c, may, s, ExtractRun(i, ExtractOutcomeFor(c, s.sources, EventAt(s, i), conversion).value, 0, owned))
  {
    var e := EventAt(s, i);
    var outcome := ExtractOutcomeFor(c, s.sources, e, conversion).value;
    if outcome.Ok? {
      ReadsItsVersion(c, s, i);
      OutcomeOfContent(c, s.sources, e, conversion);
      assert Gives(c, may, ReadSource(c, s.sources, e.payloadUri).value, conversion, outcome.value);
    }
  }

  lemma BeginFrame(c: Config, s: State, now: Time, h: HandlerStep, t: State) returns (run: ExtractRun)
    requires h.BeginExtract? && HandlerEnabled(c, s, now, h) && t == HandlerNext(c, s, now, h)
    ensures t.artifacts == s.artifacts && t.db == s.db && t.runs == s.runs[h.r := run]
    ensures run == ExtractRun(h.i, ExtractOutcomeFor(c, s.sources, EventAt(s, h.i), h.conversion).value, 0, h.owned)
  {
    run := t.runs[h.r];
  }

  lemma NewRunIsOk(c: Config, may: Converter, s: State, h: HandlerStep)
    requires Inv(c, s) && h.BeginExtract? && Readable(s, h.i) && s.log[h.i].lane.topic == FetchedTopic
    requires ExtractOutcomeFor(c, s.sources, EventAt(s, h.i), h.conversion).Some? && Answers(c, may, s, Handling(h))
    ensures RunOk(c, may, s,
                  ExtractRun(h.i, ExtractOutcomeFor(c, s.sources, EventAt(s, h.i), h.conversion).value, 0, h.owned))
  {
    TopicTellsType(s, h.i);
    BegunIsOk(c, may, s, h.i, h.conversion, h.owned);
  }

  lemma RunAdded(c: Config, may: Converter, s: State, t: State, r: nat, run: ExtractRun)
    requires Kept(c, s, t) && ContentsInv(c, may, s) && RunOk(c, may, s, run)
    requires t.artifacts == s.artifacts && t.db == s.db && t.runs == s.runs[r := run]
    ensures ContentsInv(c, may, t)
  {
    RunStays(c, may, s, t, run, run);
    ContentsStay(c, may, s, t);
  }

  lemma BeginKeepsContents(c: Config, may: Converter, s: State, now: Time, h: HandlerStep, t: State)
    requires Kept(c, s, t) && ContentsInv(c, may, s) && Inv(c, s) && h.BeginExtract?
    requires HandlerEnabled(c, s, now, h) && t == HandlerNext(c, s, now, h) && Answers(c, may, s, Handling(h))
    ensures ContentsInv(c, may, t)
  {
    NewRunIsOk(c, may, s, h);
    var run := BeginFrame(c, s, now, h, t);
    RunAdded(c, may, s, t, h.r, run);
  }

  lemma StoredIsOk(c: Config, may: Converter, s: State, t: State, run: ExtractRun, key: string,
                   artifact: Streams.Artifact)
    requires Kept(c, s, t) && RunOk(c, may, s, run) && run.outcome.Ok?
    requires var e := EventAt(s, run.record);
             || (key == NormalizedFor(e) && artifact == Streams.NormalizedOf(run.outcome.value))
             || (key == ManifestFor(e) && artifact == Streams.ManifestOf(run.outcome.value, e.contentSha256))
    ensures ArtifactOk(c, may, t, key, artifact)
  {
    var v := VersionRef(EventAt(s, run.record));
    assert IsArtifact(c, may, v, s.db.versions[v], BytesOf(c, s.sources, s.db.versions[v]), key, artifact);
    ArtifactStays(c, may, s, t, key, artifact);
  }

  lemma ArtifactAdded(c: Config, may: Converter, s: State, t: State, run: ExtractRun, key: string)
    requires Kept(c, s, t) && ContentsInv(c, may, s) && RunOk(c, may, s, run) && run.outcome.Ok?
    requires t.db == s.db && key in t.artifacts && t.artifacts == s.artifacts[key := t.artifacts[key]]
    requires forall r :: r in t.runs ==> SameRun(s, r, t.runs[r])
    requires var e := EventAt(s, run.record);
             || (key == NormalizedFor(e) && t.artifacts[key] == Streams.NormalizedOf(run.outcome.value))
             || (key == ManifestFor(e) && t.artifacts[key] == Streams.ManifestOf(run.outcome.value, e.contentSha256))
    ensures ContentsInv(c, may, t)
  {
    StoredIsOk(c, may, s, t, run, key, t.artifacts[key]);
    ContentsStay(c, may, s, t);
  }

  lemma StoreFrame(c: Config, s: State, now: Time, h: HandlerStep, t: State) returns (key: string)
    requires (h.StoreNormalized? || h.StoreManifest?) && HandlerEnabled(c, s, now, h) && t == HandlerNext(c, s, now, h)
    ensures h.r in s.runs && s.runs[h.r].outcome.Ok? && Readable(s, s.runs[h.r].record)
    ensures t.db == s.db && key in t.artifacts && t.artifacts == s.artifacts[key := t.artifacts[key]]
    ensures forall r :: r in t.runs ==> SameRun(s, r, t.runs[r])
    ensures var e, result := EventAt(s, s.runs[h.r].record), s.runs[h.r].outcome.value;
            && e.DocumentFetched?
            && (|| (key == NormalizedFor(e) && t.artifacts[key] == Streams.NormalizedOf(result))
                || (key == ManifestFor(e) && t.artifacts[key] == Streams.ManifestOf(result, e.contentSha256)))
  {
    var e := EventAt(s, s.runs[h.r].record);
    key := if h.StoreNormalized? then NormalizedFor(e) else ManifestFor(e);
  }

  lemma StoreKeepsContents(c: Config, may: Converter, s: State, now: Time, h: HandlerStep, t: State)
    requires Kept(c, s, t) && ContentsInv(c, may, s) && (h.StoreNormalized? || h.StoreManifest?)
    requires HandlerEnabled(c, s, now, h) && t == HandlerNext(c, s, now, h)
    ensures ContentsInv(c, may, t)
  {
    var key := StoreFrame(c, s, now, h, t);
    ArtifactAdded(c, may, s, t, s.runs[h.r], key);
  }

  lemma FinishFetchKeepsContents(c: Config, may: Converter, s: State, now: Time, h: HandlerStep, t: State)
    requires Kept(c, s, t) && ContentsInv(c, may, s) && TablesInv(s.db) && RunsInv(c, s)
    requires s.now < now && h.FinishFetch?
    requires HandlerEnabled(c, s, now, h) && t == HandlerNext(c, s, now, h)
    ensures ContentsInv(c, may, t)
  {
    FinishFetchFrame(c, s, now, h, t);
    FetchTxKeepsTables(c, s, h.r, h.newId, now, t.db);
    FetchKeepsContents(c, may, s, t, EventAt(s, s.fetches[h.r].record), s.fetches[h.r].inputs, h.newId);
  }

  lemma FinishExtractKeepsContents(c: Config, may: Converter, s: State, now: Time, h: HandlerStep, t: State)
    requires Kept(c, s, t) && ContentsInv(c, may, s) && TablesInv(s.db) && RunsInv(c, s)
    requires s.now < now && h.FinishExtract?
    requires HandlerEnabled(c, s, now, h) && t == HandlerNext(c, s, now, h)
    ensures ContentsInv(c, may, t)
  {
    FinishExtractFrame(c, s, now, h, t);
    FinishTxKeepsTables(c, s, h.r, h.newId, now, t.db);
    assert ExtractRunOk(c, s, s.runs[h.r]);
    FinishKeepsContents(c, may, s, t, s.runs[h.r], h.newId);
  }

  lemma DropFrame(c: Config, s: State, now: Time, h: HandlerStep, t: State)
    requires h.BeginFetch? || h.DropFetch? || h.DropRun?
    requires HandlerEnabled(c, s, now, h) && t == HandlerNext(c, s, now, h)
    ensures t.artifacts == s.artifacts && t.db.versions == s.db.versions
    ensures forall r :: r in t.runs ==> SameRun(s, r, t.runs[r])
  {
  }

  lemma HandlerKeepsContents(c: Config, may: Converter, s: State, now: Time, h: HandlerStep, t: State)
    requires Kept(c, s, t) && ContentsInv(c, may, s) && Inv(c, s) && s.now < now && Answers(c, may, s, Handling(h))
    requires HandlerEnabled(c, s, now, h) && t == HandlerNext(c, s, now, h)
    ensures ContentsInv(c, may, t)
  {
    if h.BeginExtract? {
      BeginKeepsContents(c, may, s, now, h, t);
    } else if h.StoreNormalized? || h.StoreManifest? {
      StoreKeepsContents(c, may, s, now, h, t);
    } else if h.FinishFetch? {
      FinishFetchKeepsContents(c, may, s, now, h, t);
    } else if h.FinishExtract? {
      FinishExtractKeepsContents(c, may, s, now, h, t);
    } else {
      DropFrame(c, s, now, h, t);
      QuietStep(c, may, s, t);
    }
  }

  lemma RelayFrame(s: State, r: Relay.State)
    ensures var t := WithRelay(s, r); t.artifacts == s.artifacts && t.db.versions == s.db.versions && t.runs == s.runs
  {
  }

  lemma LoopFrame(c: Config, s: State, now: Time, l: LoopStep)
    requires LoopEnabled(c, s, l)
    ensures var t := LoopNext(c, s, now, l);
            && t.artifacts == s.artifacts && t.db == s.db
            && forall r :: r in t.runs ==> SameRun(s, r, t.runs[r])
  {
  }

  lemma OtherFrame(c: Config, s: State, now: Time, a: Step, t: State)
    requires !a.Requesting? && !a.Handling? && Enabled(c, s, now, a) && t == Next(c, s, now, a)
    ensures t.artifacts == s.artifacts && t.db.versions == s.db.versions
    ensures forall r :: r in t.runs ==> SameRun(s, r, t.runs[r])
  {
    match a
    case Relaying(b) => RelayFrame(s.(now := now), Relay.Next(RelayOf(s), now, b));
    case Looping(l) => LoopFrame(c, s, now, l);
    case Tick =>
  }

  lemma OtherKeepsContents(c: Config, may: Converter, s: State, now: Time, a: Step, t: State)
    requires Kept(c, s, t) && ContentsInv(c, may, s) && !a.Requesting? && !a.Handling?
    requires Enabled(c, s, now, a) && t == Next(c, s, now, a)
    ensures ContentsInv(c, may, t)
  {
    OtherFrame(c, s, now, a, t);
    QuietStep(c, may, s, t);
  }

  lemma StepKeepsContents(c: Config, may: Converter, s: State, now: Time, a: Step, t: State)
    requires Inv(c, s) && ContentsInv(c, may, s) && Answers(c, may, s, a)
    requires s.now < now && Enabled(c, s, now, a) && t == Next(c, s, now, a)
    ensures ContentsInv(c, may, t)
  {
    StepKeepsInv(c, s, now, a, t);
    match a
    case Requesting(q) => RequestKeepsContents(c, may, s, now, q, t);
    case Handling(h) => HandlerKeepsContents(c, may, s, now, h, t);
    case _ => OtherKeepsContents(c, may, s, now, a, t);
  }

  lemma NextKeepsContents(c: Config, may: Converter, run: seq<State>, steps: seq<Step>, k: nat)
    requires IsRunWith(c, may, run, steps) && k < |steps| && ContentsInv(c, may, run[k])
    ensures ContentsInv(c, may, run[k + 1])
  {
    ReachableInv(c, run, steps, k);
    assert StepAt(c, run, steps, k) && AnswersAt(c, may, run, steps, k);
    StepKeepsContents(c, may, run[k], run[k + 1].now, steps[k], run[k + 1]);
  }

  lemma {:induction false} ContentsInRuns(c: Config, may: Converter, run: seq<State>, steps: seq<Step>, n: nat)
    requires IsRunWith(c, may, run, steps) && n <= |steps|
    ensures ContentsInv(c, may, run[n])
  {
    if n > 0 {
      ContentsInRuns(c, may, run, steps, n - 1);
      NextKeepsContents(c, may, run, steps, n - 1);
    }
  }

  // ---- What is stored ----

  /** Under `key` is one of the two objects that are to be stored of a conversion of version `v`: all the evidence that
      its document holds and nothing else, with its markdown; or the manifest that says what became of it. */
  ghost predicate IsKept(v: Ref, sha: string, document: JsonTree.Value, markdown: string, key: string,
                         artifact: Streams.Artifact)
  {
    match artifact
    case Normalized(kept, text) =>
      && key == v.0 + "/" + v.1 + "/extracted/" + sha + "/normalized.json"
      && JsonTree.Clean(kept) && JsonTree.HoldsEvidence(document, kept) && text == markdown
    case Manifest(status, sourceSha) =>
      && key == v.0 + "/" + v.1 + "/extracted/" + sha + "/manifest.json"
      && sourceSha == sha && status == if Streams.NoText(markdown) then NeedsReview else Succeeded
  }

  lemma ResultIsFaithful(c: Config, may: Converter, content: Bytes, result: Streams.ExtractionResult)
    returns (document: JsonTree.Value, markdown: string)
    requires Possible(c, may, content, result)
    ensures Passes(c, content) && Converted(result.status)
    ensures may(content, Streams.Converted(document, markdown)) && Streams.Faithful(document, markdown, result)
  {
    var conversion :| Gives(c, may, content, conversion, result);
    Streams.ExtractedIsFaithful(content, c.extractMax, c.sha(content), c.sha, conversion);
    document, markdown := conversion.document, conversion.markdown;
  }

  lemma ArtifactIsKept(c: Config, may: Converter, v: Ref, row: VersionRow, content: Bytes, key: string,
                       artifact: Streams.Artifact)
    returns (document: JsonTree.Value, markdown: string)
    requires IsArtifact(c, may, v, row, content, key, artifact)
    ensures Passes(c, content) && may(content, Streams.Converted(document, markdown))
    ensures IsKept(v, row.contentSha256, document, markdown, key, artifact)
  {
    if IsNormalized(c, may, content, artifact) {
      var result :| Possible(c, may, content, result) && artifact == Streams.NormalizedOf(result);
      document, markdown := ResultIsFaithful(c, may, content, result);
    } else {
      var result :| Possible(c, may, content, result) && artifact == Streams.ManifestOf(result, row.contentSha256);
      document, markdown := ResultIsFaithful(c, may, content, result);
    }
  }

  /** Every stored object is one of the two that are to be kept of an answer that the converter may have given for the
      bytes of a committed version, which passed the fetcher. */
  lemma StoredEvidence(c: Config, may: Converter, run: seq<State>, steps: seq<Step>, n: nat, k: string)
    returns (v: Ref, document: JsonTree.Value, markdown: string)
    requires IsRunWith(c, may, run, steps) && n <= |steps| && k in run[n].artifacts
    ensures v in run[n].db.versions
    ensures var content := BytesOf(c, run[n].sources, run[n].db.versions[v]);
            Passes(c, content) && may(content, Streams.Converted(document, markdown))
    ensures IsKept(v, run[n].db.versions[v].contentSha256, document, markdown, k, run[n].artifacts[k])
  {
    ContentsInRuns(c, may, run, steps, n);
    var artifact := run[n].artifacts[k];
    assert ArtifactOk(c, may, run[n], k, artifact);
    v :| v in run[n].db.versions && IsArtifact(c, may, v, run[n].db.versions[v],
                                               BytesOf(c, run[n].sources, run[n].db.versions[v]), k, artifact);
    document, markdown := ArtifactIsKept(c, may, v, run[n].db.versions[v],
                                         BytesOf(c, run[n].sources, run[n].db.versions[v]), k, artifact);
  }

  /** Whatever the converter answers, every stored object is an artifact of a committed version that passed the
      fetcher: cleaned at any depth, or naming that version's digest. */
  lemma StoredIsClean(c: Config, run: seq<State>, steps: seq<Step>, n: nat, k: string)
    requires IsRun(c, run, steps) && n <= |steps| && k in run[n].artifacts
    ensures exists v :: v in run[n].db.versions && Passes(c, BytesOf(c, run[n].sources, run[n].db.versions[v]))
              && var sha := run[n].db.versions[v].contentSha256;
                 match run[n].artifacts[k]
                 case Normalized(document, _) => k == NormalizedKey(v.0, v.1, sha) && JsonTree.Clean(document)
                 case Manifest(status, sourceSha) =>
                   k == ManifestKey(v.0, v.1, sha) && sourceSha == sha && Converted(status)
  {
    var may: Converter := (content, conversion) => true;
    forall i | 0 <= i < |steps| ensures AnswersAt(c, may, run, steps, i) {
    }
    var v, document, markdown := StoredEvidence(c, may, run, steps, n, k);
  }

  /** The two objects of a converted version, and its status, each from some extraction of its own bytes. */
  lemma PairOfVersion(c: Config, may: Converter, run: seq<State>, steps: seq<Step>, n: nat, v: Ref)
    requires IsRunWith(c, may, run, steps) && n <= |steps| && v in run[n].db.versions
    requires Converted(run[n].db.versions[v].extraction)
    ensures var row := run[n].db.versions[v];
            var content := BytesOf(c, run[n].sources, row);
            var normalized := NormalizedKey(v.0, v.1, row.contentSha256);
            var manifest := ManifestKey(v.0, v.1, row.contentSha256);
            && IsStatus(c, may, content, row.extraction)
            && normalized in run[n].artifacts && IsNormalized(c, may, content, run[n].artifacts[normalized])
            && manifest in run[n].artifacts
            && IsManifest(c, may, content, row.contentSha256, run[n].artifacts[manifest])
  {
    var row := run[n].db.versions[v];
    ContentsInRuns(c, may, run, steps, n);
    assert RowOk(c, may, run[n], v);
    WriteBeforeReference(c, run, steps, n, v);
    var content := BytesOf(c, run[n].sources, row);
    var normalized, manifest := NormalizedKey(v.0, v.1, row.contentSha256), ManifestKey(v.0, v.1, row.contentSha256);
    ArtifactIsOwn(c, may, run, steps, n, v, normalized);
    ArtifactIsOwn(c, may, run, steps, n, v, manifest);
    ArtifactKeysOf(c, run, steps, n, v);
    assert IsNormalized(c, may, content, run[n].artifacts[normalized]);
    assert IsManifest(c, may, content, row.contentSha256, run[n].artifacts[manifest]);
  }

  lemma ArtifactKeysOf(c: Config, run: seq<State>, steps: seq<Step>, n: nat, v: Ref)
    requires IsRun(c, run, steps) && n <= |steps| && v in run[n].db.versions
    ensures var sha := run[n].db.versions[v].contentSha256; NormalizedKey(v.0, v.1, sha) != ManifestKey(v.0, v.1, sha)
  {
    VersionIds(c, run, steps, n, v);
    var sha := run[n].db.versions[v].contentSha256;
    ArtifactKeysDisjoint(v.0, v.1, sha, v.0, v.1, sha);
  }

  lemma ArtifactIsOwn(c: Config, may: Converter, run: seq<State>, steps: seq<Step>, n: nat, v: Ref, k: string)
    requires IsRunWith(c, may, run, steps) && n <= |steps| && v in run[n].db.versions && k in run[n].artifacts
    requires var sha := run[n].db.versions[v].contentSha256;
             k in {NormalizedKey(v.0, v.1, sha), ManifestKey(v.0, v.1, sha)}
    ensures var row := run[n].db.versions[v];
            IsArtifact(c, may, v, row, BytesOf(c, run[n].sources, row), k, run[n].artifacts[k])
  {
    ContentsInRuns(c, may, run, steps, n);
    assert ArtifactOk(c, may, run[n], k, run[n].artifacts[k]);
    var w :| w in run[n].db.versions && IsArtifact(c, may, w, run[n].db.versions[w],
                                                   BytesOf(c, run[n].sources, run[n].db.versions[w]), k,
                                                   run[n].artifacts[k]);
    if w != v {
      ArtifactsAreNotShared(c, run, steps, n, v, w);
      assert false;
    }
  }

  /** A converter that always says `convert(content)` of the same content. */
  ghost predicate IsFunction(may: Converter, convert: Bytes -> Streams.Conversion) {
    forall content, conversion :: may(content, conversion) ==> conversion == convert(content)
  }

  /** If the converter is a function of the bytes, then in every state, however often records were redelivered, a
      converted version, its normalized object and its manifest all come from its one answer to the version's own
      bytes. */
  lemma StoredPairIsCommitted(c: Config, may: Converter, convert: Bytes -> Streams.Conversion, run: seq<State>,
                              steps: seq<Step>, n: nat, v: Ref)
    requires IsFunction(may, convert) && IsRunWith(c, may, run, steps) && n <= |steps| && v in run[n].db.versions
    requires Converted(run[n].db.versions[v].extraction)
    ensures var row := run[n].db.versions[v];
            var answer := convert(BytesOf(c, run[n].sources, row));
            var normalized := v.0 + "/" + v.1 + "/extracted/" + row.contentSha256 + "/normalized.json";
            var manifest := v.0 + "/" + v.1 + "/extracted/" + row.contentSha256 + "/manifest.json";
            && answer.Converted?
            && row.extraction == (if Streams.NoText(answer.markdown) then NeedsReview else Succeeded)
            && normalized in run[n].artifacts && manifest in run[n].artifacts
            && run[n].artifacts[normalized].Normalized? && run[n].artifacts[normalized].markdown == answer.markdown
            && JsonTree.Clean(run[n].artifacts[normalized].document)
            && JsonTree.HoldsEvidence(answer.document, run[n].artifacts[normalized].document)
            && run[n].artifacts[manifest] == Streams.Manifest(row.extraction, row.contentSha256)
  {
    PairOfVersion(c, may, run, steps, n, v);
    var row := run[n].db.versions[v];
    var content := BytesOf(c, run[n].sources, row);
    var result :| Possible(c, may, content, result) && row.extraction == result.status;
    OnlyResult(c, may, convert, content, result);
    var document, markdown := ResultIsFaithful(c, may, content, result);
    assert convert(content) == Streams.Converted(document, markdown);
  }

  lemma OnlyResult(c: Config, may: Converter, convert: Bytes -> Streams.Conversion, content: Bytes,
                   result: Streams.ExtractionResult)
    requires IsFunction(may, convert) && Possible(c, may, content, result)
    ensures Streams.Extract(content, c.extractMax, c.sha(content), c.sha, convert(content)) == Streams.Extracted(result)
    ensures forall other :: Possible(c, may, content, other) ==> other == result
  {
    var conversion :| Gives(c, may, content, conversion, result);
    forall other | Possible(c, may, content, other) ensures other == result {
      var its :| Gives(c, may, content, its, other);
    }
  }

  // ---- When the manifest can disagree with the row ----

  /** Whatever the converter may say of bytes that pass the fetcher, it leads to one status. */
  ghost predicate OneStatusEach(c: Config, may: Converter) {
    forall content, a, b :: Possible(c, may, content, a) && Possible(c, may, content, b) ==> a.status == b.status
  }

  /** The stored manifest of version `v` says what the row says. */
  ghost predicate ManifestAgrees(s: State, v: Ref)
    requires v in s.db.versions
  {
    var row := s.db.versions[v];
    var manifest := ManifestKey(v.0, v.1, row.contentSha256);
    Converted(row.extraction) ==>
      manifest in s.artifacts && s.artifacts[manifest] == Streams.Manifest(row.extraction, row.contentSha256)
  }

  ghost predicate ManifestsAlwaysAgree(c: Config, may: Converter) {
    forall run: seq<State>, steps: seq<Step>, n: nat, v ::
      IsRunWith(c, may, run, steps) && n <= |steps| && v in run[n].db.versions ==> ManifestAgrees(run[n], v)
  }

  lemma OneStatusAgrees(c: Config, may: Converter, run: seq<State>, steps: seq<Step>, n: nat, v: Ref)
    requires OneStatusEach(c, may) && IsRunWith(c, may, run, steps) && n <= |steps| && v in run[n].db.versions
    ensures ManifestAgrees(run[n], v)
  {
    if Converted(run[n].db.versions[v].extraction) {
      PairOfVersion(c, may, run, steps, n, v);
    }
  }
}
