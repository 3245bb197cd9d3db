/** What holds of the tables when only the pipeline writes them: the causal chain from every event back to its
    submission, and the status columns as a function of the events stored. */
module Provenance {
  import opened Domain
  import opened Outbox
  import opened Streams
  import opened Ledger

  // The tables without the delivery columns of the outbox.
  datatype Facts = Facts(tenants: set<Id>, documents: map<Ref, DocumentRow>, versions: map<Ref, VersionRow>,
                         processed: set<Key>, events: seq<Event>)

  function View(db: Db): Facts {
    Facts(db.tenants, db.documents, db.versions, db.processed, Events(db.outbox))
  }

  function Doc(e: Event): Ref {
    (e.tenantId, e.documentId)
  }

  function FetchKey(e: Event): Key {
    (e.tenantId, e.eventId, DocumentFetcher)
  }

  function ExtractKey(e: Event): Key {
    (e.tenantId, e.eventId, ContentExtractor)
  }

  /** Every document has one version, and every version is the one of its document. */
  ghost predicate OneVersionEach(f: Facts) {
    && (forall v :: v in f.versions ==>
          && (v.0, f.versions[v].documentId) in f.documents
          && f.documents[(v.0, f.versions[v].documentId)].currentVersion == Some(v.1)
          && !f.versions[v].deleted
          && v.0 in f.tenants)
    && (forall d :: d in f.documents ==>
          && f.documents[d].currentVersion.Some?
          && (d.0, f.documents[d].currentVersion.value) in f.versions
          && f.versions[(d.0, f.documents[d].currentVersion.value)].documentId == d.1)
  }

  /** The version of a document of which `OneVersionEach` holds. */
  function VersionOf(f: Facts, d: Ref): Ref {
    if d in f.documents && f.documents[d].currentVersion.Some? then (d.0, f.documents[d].currentVersion.value)
    else ("", "")
  }

  /** The event ids of one tenant are distinct. */
  ghost predicate DistinctIds(events: seq<Event>) {
    forall i, j :: 0 <= i < j < |events| && events[i].tenantId == events[j].tenantId
                   ==> events[i].eventId != events[j].eventId
  }

  ghost predicate CausedBy(child: Event, parent: Event) {
    && child.causationId == Some(parent.eventId)
    && child.tenantId == parent.tenantId
    && child.documentId == parent.documentId
    && child.correlationId == parent.correlationId
  }

  predicate IsFetchOutcome(e: Event) {
    e.DocumentFetched? || e.DocumentFetchRejected?
  }

  predicate IsExtractOutcome(e: Event) {
    e.ContentExtracted? || e.ContentExtractionRejected?
  }

  ghost predicate IsRoot(f: Facts, e: Event)
    requires e.DocumentSubmitted?
  {
    && e.causationId.None? && e.correlationId == e.eventId
    && Doc(e) in f.documents
    && VersionOf(f, Doc(e)) in f.versions
    && f.versions[VersionOf(f, Doc(e))].sourceUri == e.payloadUri
  }

  /** The cross-stage contract on the payload of the event that the extractor reads. */
  ghost predicate Describes(f: Facts, e: Event)
    requires e.DocumentFetched?
  {
    var v := (e.tenantId, e.documentVersionId);
    && Doc(e) in f.documents && v == VersionOf(f, Doc(e)) && v in f.versions
    && e.contentSha256 == f.versions[v].contentSha256
    && e.payloadUri == f.versions[v].sourceUri
    && e.inspectionStatus == "valid" && e.detectedMimeType == PDF_MIME
  }

  ghost predicate Parented(events: seq<Event>, e: Event, j: nat) {
    && j < |events| && CausedBy(e, events[j])
    && (IsFetchOutcome(e) ==> events[j].DocumentSubmitted?)
    && (IsExtractOutcome(e) ==> events[j].DocumentFetched? && e.documentVersionId == events[j].documentVersionId)
  }

  ghost predicate Lineage(f: Facts) {
    && OneVersionEach(f)
    && OneRootEach(f)
    && AllGrounded(f)
    && Chained(f.processed, f.events)
  }

  ghost predicate AllGrounded(f: Facts) {
    forall i {:trigger Grounded(f, f.events[i])} :: 0 <= i < |f.events| ==> Grounded(f, f.events[i])
  }

  ghost predicate Chained(processed: set<Key>, events: seq<Event>) {
    && DistinctIds(events)
    && ExactlyOnce(processed, events)
    && Parents(events)
  }

  ghost predicate Grounded(f: Facts, e: Event) {
    && (e.DocumentSubmitted? ==> IsRoot(f, e))
    && (e.DocumentFetched? ==> Describes(f, e))
  }

  ghost predicate Parents(events: seq<Event>) {
    forall i {:trigger HasParent(events, events[i])} ::
      0 <= i < |events| && !events[i].DocumentSubmitted? ==> HasParent(events, events[i])
  }

  ghost predicate HasParent(events: seq<Event>, e: Event) {
    exists j: nat :: Parented(events, e, j)
  }

  /** Every document has exactly one DocumentSubmitted event. */
  ghost predicate OneRootEach(f: Facts) {
    && (forall d :: d in f.documents ==>
          exists i :: 0 <= i < |f.events| && f.events[i].DocumentSubmitted? && Doc(f.events[i]) == d)
    && (forall i, j :: 0 <= i < j < |f.events| && f.events[i].DocumentSubmitted? && f.events[j].DocumentSubmitted?
                       ==> Doc(f.events[i]) != Doc(f.events[j]))
  }

  /** The columns of a document and its version. */
  ghost predicate Columns(f: Facts, d: Ref, status: DocumentStatus, inspection: InspectionStatus,
                          extraction: ExtractionStatus, referenced: bool)
  {
    && d in f.documents && VersionOf(f, d) in f.versions
    && f.documents[d].status == status
    && f.versions[VersionOf(f, d)].inspection == inspection
    && f.versions[VersionOf(f, d)].extraction == extraction
    && f.versions[VersionOf(f, d)].normalizedUri.Some? == referenced
    && f.versions[VersionOf(f, d)].manifestUri.Some? == referenced
  }

  /** The status columns are determined by the last event of the document. */
  ghost predicate StatusOf(f: Facts, e: Event) {
    match e
    case DocumentSubmitted(_, _, _, _, _, _) =>
      FetchKey(e) !in f.processed ==>
        Columns(f, Doc(e), StatusSubmitted, InspectionPending, ExtractionPending, false)
    case DocumentFetchRejected(_, _, _, _, _, _, _) =>
      Columns(f, Doc(e), StatusFailed, InspectionInvalid, ExtractionPending, false)
    case DocumentFetched(_, _, _, _, _, _, _, _, _, _, _) =>
      ExtractKey(e) !in f.processed ==>
        Columns(f, Doc(e), StatusFetched, InspectionValid, ExtractionPending, false)
    case ContentExtracted(_, _, _, _, _, _, _, _, _, status) =>
      && status in {Succeeded, NeedsReview}
      && Columns(f, Doc(e), if status == Succeeded then StatusExtracted else StatusFailed, InspectionValid, status,
                 true)
    case ContentExtractionRejected(_, _, _, _, _, _, _) =>
      Columns(f, Doc(e), StatusFailed, InspectionValid, ExtractionFailed, false)
  }

  ghost predicate Statuses(f: Facts) {
    forall i {:trigger StatusOf(f, f.events[i])} :: 0 <= i < |f.events| ==> StatusOf(f, f.events[i])
  }

  // ---- Which events a document can have ----

  lemma SameEvent(f: Facts, i: nat, j: nat)
    requires DistinctIds(f.events) && i < |f.events| && j < |f.events|
    requires f.events[i].tenantId == f.events[j].tenantId && f.events[i].eventId == f.events[j].eventId
    ensures i == j
  {
  }

  lemma SameRoot(f: Facts, i: nat, j: nat)
    requires OneRootEach(f) && i < |f.events| && j < |f.events|
    requires f.events[i].DocumentSubmitted? && f.events[j].DocumentSubmitted? && Doc(f.events[i]) == Doc(f.events[j])
    ensures i == j
  {
  }

  /** The fetch outcome of a document is the effect of its root. */
  lemma FetchOutcomeOfRoot(f: Facts, i: nat, k: nat)
    requires Lineage(f) && i < |f.events| && k < |f.events|
    requires f.events[i].DocumentSubmitted? && IsFetchOutcome(f.events[k]) && Doc(f.events[i]) == Doc(f.events[k])
    ensures EffectKey(f.events[k]) == Some(FetchKey(f.events[i])) && FetchKey(f.events[i]) in f.processed
  {
    assert HasParent(f.events, f.events[k]);
    var j: nat :| Parented(f.events, f.events[k], j);
    SameRoot(f, i, j);
  }

  /** A document has at most one fetch outcome. */
  lemma SameFetchOutcome(f: Facts, k: nat, m: nat)
    requires Lineage(f) && k < |f.events| && m < |f.events|
    requires IsFetchOutcome(f.events[k]) && IsFetchOutcome(f.events[m]) && Doc(f.events[k]) == Doc(f.events[m])
    ensures k == m
  {
    assert HasParent(f.events, f.events[k]);
    var j: nat :| Parented(f.events, f.events[k], j);
    FetchOutcomeOfRoot(f, j, k);
    FetchOutcomeOfRoot(f, j, m);
  }

  /** The extract outcome of a document is the effect of its DocumentFetched event. */
  lemma ExtractOutcomeOfFetched(f: Facts, m: nat, k: nat)
    requires Lineage(f) && m < |f.events| && k < |f.events|
    requires f.events[m].DocumentFetched? && IsExtractOutcome(f.events[k]) && Doc(f.events[m]) == Doc(f.events[k])
    ensures EffectKey(f.events[k]) == Some(ExtractKey(f.events[m])) && ExtractKey(f.events[m]) in f.processed
  {
    assert HasParent(f.events, f.events[k]);
    var j: nat :| Parented(f.events, f.events[k], j);
    SameFetchOutcome(f, m, j);
  }

  lemma SameExtractOutcome(f: Facts, k: nat, m: nat)
    requires Lineage(f) && k < |f.events| && m < |f.events|
    requires IsExtractOutcome(f.events[k]) && IsExtractOutcome(f.events[m]) && Doc(f.events[k]) == Doc(f.events[m])
    ensures k == m
  {
    assert HasParent(f.events, f.events[k]);
    var j: nat :| Parented(f.events, f.events[k], j);
    ExtractOutcomeOfFetched(f, j, k);
    ExtractOutcomeOfFetched(f, j, m);
  }

  /** Before its root is processed, a document has no other event. */
  lemma OnlyRoot(f: Facts, i: nat, k: nat)
    requires Lineage(f) && i < |f.events| && k < |f.events|
    requires f.events[i].DocumentSubmitted? && FetchKey(f.events[i]) !in f.processed
    requires Doc(f.events[k]) == Doc(f.events[i])
    ensures k == i
  {
    if f.events[k].DocumentSubmitted? {
      SameRoot(f, i, k);
    } else if IsFetchOutcome(f.events[k]) {
      FetchOutcomeOfRoot(f, i, k);
    } else {
      assert HasParent(f.events, f.events[k]);
      var j: nat :| Parented(f.events, f.events[k], j);
      FetchOutcomeOfRoot(f, i, j);
    }
  }

  /** Before its DocumentFetched event is processed, a document has only that event and its processed root. */
  lemma OnlyRootAndFetched(f: Facts, m: nat, k: nat)
    requires Lineage(f) && m < |f.events| && k < |f.events|
    requires f.events[m].DocumentFetched? && ExtractKey(f.events[m]) !in f.processed
    requires Doc(f.events[k]) == Doc(f.events[m]) && k != m
    ensures f.events[k].DocumentSubmitted? && FetchKey(f.events[k]) in f.processed
  {
    if f.events[k].DocumentSubmitted? {
      FetchOutcomeOfRoot(f, k, m);
    } else if IsFetchOutcome(f.events[k]) {
      SameFetchOutcome(f, k, m);
    } else {
      ExtractOutcomeOfFetched(f, m, k);
    }
  }

  // ---- Preservation ----

  predicate Known(f: Facts, d: Ref) {
    d in f.documents && VersionOf(f, d) in f.versions
  }

  // The columns a worker's transaction writes.
  datatype Change = Change(status: DocumentStatus, inspection: InspectionStatus, extraction: ExtractionStatus,
                           detectedMimeType: Option<string>, normalizedUri: Option<string>,
                           manifestUri: Option<string>)

  function Changed(v: VersionRow, c: Change): VersionRow {
    v.(inspection := c.inspection, extraction := c.extraction, detectedMimeType := c.detectedMimeType,
       normalizedUri := c.normalizedUri, manifestUri := c.manifestUri)
  }

  /** The facts after a worker's transaction: one key, one event and the columns of one document. */
  function Advance(f: Facts, d: Ref, c: Change, key: Key, e: Event): Facts
    requires Known(f, d)
  {
    Facts(f.tenants,
          f.documents[d := f.documents[d].(status := c.status)],
          f.versions[VersionOf(f, d) := Changed(f.versions[VersionOf(f, d)], c)],
          f.processed + {key},
          f.events + [e])
  }

  lemma AdvanceKeepsVersions(f: Facts, d: Ref, c: Change, key: Key, e: Event)
    requires OneVersionEach(f) && Known(f, d)
    ensures OneVersionEach(Advance(f, d, c, key, e))
  {
    var g := Advance(f, d, c, key, e);
    forall v | v in g.versions
      ensures (v.0, g.versions[v].documentId) in g.documents
      ensures g.documents[(v.0, g.versions[v].documentId)].currentVersion == Some(v.1)
      ensures !g.versions[v].deleted && v.0 in g.tenants
    {
      assert v in f.versions && g.versions[v].documentId == f.versions[v].documentId;
    }
    forall x | x in g.documents
      ensures g.documents[x].currentVersion.Some?
      ensures (x.0, g.documents[x].currentVersion.value) in g.versions
      ensures g.versions[(x.0, g.documents[x].currentVersion.value)].documentId == x.1
    {
      assert x in f.documents && g.documents[x].currentVersion == f.documents[x].currentVersion;
    }
  }

  lemma AppendKeepsParents(events: seq<Event>, e: Event)
    requires Parents(events) && (e.DocumentSubmitted? || HasParent(events, e))
    ensures Parents(events + [e])
  {
    var after := events + [e];
    forall i | 0 <= i < |after| && !after[i].DocumentSubmitted? ensures HasParent(after, after[i]) {
      if i < |events| {
        assert HasParent(events, events[i]);
      }
      var j: nat :| Parented(events, after[i], j);
      assert Parented(after, after[i], j);
    }
  }

  lemma AppendKeepsDistinct(events: seq<Event>, e: Event)
    requires DistinctIds(events) && !EventKnown(events, e)
    ensures DistinctIds(events + [e])
  {
  }

  lemma AdvanceKeepsGround(f: Facts, d: Ref, c: Change, key: Key, e: Event, o: Event)
    requires Known(f, d) && Grounded(f, o)
    ensures Grounded(Advance(f, d, c, key, e), o)
  {
    assert VersionOf(Advance(f, d, c, key, e), Doc(o)) == VersionOf(f, Doc(o));
  }

  lemma AdvanceKeepsAllGrounded(f: Facts, d: Ref, c: Change, key: Key, e: Event)
    requires Known(f, d) && AllGrounded(f) && Grounded(f, e)
    ensures AllGrounded(Advance(f, d, c, key, e))
  {
    var g := Advance(f, d, c, key, e);
    forall i | 0 <= i < |g.events| ensures Grounded(g, g.events[i]) {
      AdvanceKeepsGround(f, d, c, key, e, g.events[i]);
    }
  }

  lemma AppendKeepsChained(processed: set<Key>, events: seq<Event>, key: Key, e: Event)
    requires Chained(processed, events) && key !in processed && EffectKey(e) == Some(key)
    requires !EventKnown(events, e) && HasParent(events, e)
    ensures Chained(processed + {key}, events + [e])
  {
    AppendEffect(processed, events, key, e);
    AppendKeepsParents(events, e);
    AppendKeepsDistinct(events, e);
  }

  lemma AdvanceKeepsLineage(f: Facts, d: Ref, c: Change, key: Key, e: Event)
    requires Lineage(f) && Known(f, d)
    requires key !in f.processed && EffectKey(e) == Some(key) && !e.DocumentSubmitted?
    requires !EventKnown(f.events, e) && HasParent(f.events, e) && Grounded(f, e)
    ensures Lineage(Advance(f, d, c, key, e))
  {
    AppendKeepsChained(f.processed, f.events, key, e);
    AdvanceKeepsVersions(f, d, c, key, e);
    AdvanceKeepsRoots(f, d, c, key, e);
    AdvanceKeepsAllGrounded(f, d, c, key, e);
  }

  predicate EventKnown(events: seq<Event>, e: Event) {
    exists i :: 0 <= i < |events| && events[i].tenantId == e.tenantId && events[i].eventId == e.eventId
  }

  lemma KnownIsStored(db: Db, e: Event)
    ensures EventKnown(View(db).events, e) ==> EventStored(db.outbox, e.tenantId, e.eventId)
  {
    var events := View(db).events;
    if EventKnown(events, e) {
      var i :| 0 <= i < |events| && events[i].tenantId == e.tenantId && events[i].eventId == e.eventId;
      assert db.outbox[i].event == events[i];
    }
  }

  lemma AdvanceKeepsRoots(f: Facts, d: Ref, c: Change, key: Key, e: Event)
    requires OneRootEach(f) && Known(f, d) && !e.DocumentSubmitted?
    ensures OneRootEach(Advance(f, d, c, key, e))
  {
    var g := Advance(f, d, c, key, e);
    forall x | x in g.documents
      ensures exists i :: 0 <= i < |g.events| && g.events[i].DocumentSubmitted? && Doc(g.events[i]) == x
    {
      var i :| 0 <= i < |f.events| && f.events[i].DocumentSubmitted? && Doc(f.events[i]) == x;
      assert g.events[i] == f.events[i];
    }
  }

  /** Only the columns of document `d` move, so the other documents keep theirs. */
  lemma OthersKeepStatus(f: Facts, d: Ref, c: Change, key: Key, e: Event, o: Event)
    requires OneVersionEach(f) && Known(f, d)
    requires StatusOf(f, o) && Doc(o) != d && Doc(o) in f.documents
    ensures StatusOf(Advance(f, d, c, key, e), o)
  {
    assert VersionOf(Advance(f, d, c, key, e), Doc(o)) == VersionOf(f, Doc(o)) != VersionOf(f, d) by {
      assert f.versions[VersionOf(f, Doc(o))].documentId == Doc(o).1;
      assert f.versions[VersionOf(f, d)].documentId == d.1;
    }
  }

  /** The columns that the last event of a document asks for. */
  predicate Fits(c: Change, o: Event) {
    match o
    case DocumentSubmitted(_, _, _, _, _, _) => false
    case DocumentFetchRejected(_, _, _, _, _, _, _) =>
      c.status.StatusFailed? && c.inspection.InspectionInvalid? && c.extraction.ExtractionPending?
      && c.normalizedUri.None? && c.manifestUri.None?
    case DocumentFetched(_, _, _, _, _, _, _, _, _, _, _) =>
      c.status.StatusFetched? && c.inspection.InspectionValid? && c.extraction.ExtractionPending?
      && c.normalizedUri.None? && c.manifestUri.None?
    case ContentExtracted(_, _, _, _, _, _, _, _, _, status) =>
      status in {Succeeded, NeedsReview} && c.extraction == status && c.inspection.InspectionValid?
      && c.status == (if status == Succeeded then StatusExtracted else StatusFailed)
      && c.normalizedUri.Some? && c.manifestUri.Some?
    case ContentExtractionRejected(_, _, _, _, _, _, _) =>
      c.status.StatusFailed? && c.inspection.InspectionValid? && c.extraction.ExtractionFailed?
      && c.normalizedUri.None? && c.manifestUri.None?
  }

  lemma NewStatus(f: Facts, c: Change, key: Key, o: Event)
    requires Known(f, Doc(o)) && Fits(c, o)
    ensures StatusOf(Advance(f, Doc(o), c, key, o), o)
  {
    var g := Advance(f, Doc(o), c, key, o);
    assert VersionOf(g, Doc(o)) == VersionOf(f, Doc(o));
  }

  /** If the other events of the document leave its columns open, the new event may set them. */
  lemma AdvanceKeepsStatuses(f: Facts, c: Change, key: Key, o: Event)
    requires Lineage(f) && Statuses(f) && Known(f, Doc(o)) && Fits(c, o)
    requires forall k :: 0 <= k < |f.events| && Doc(f.events[k]) == Doc(o)
                         ==> Superseded(f.events[k], f.processed + {key})
    ensures Statuses(Advance(f, Doc(o), c, key, o))
  {
    var g := Advance(f, Doc(o), c, key, o);
    forall k | 0 <= k < |g.events| ensures StatusOf(g, g.events[k]) {
      if k == |f.events| {
        NewStatus(f, c, key, o);
      } else if Doc(f.events[k]) != Doc(o) {
        assert StatusOf(f, f.events[k]);
        DocumentExists(f, k);
        OthersKeepStatus(f, Doc(o), c, key, o, f.events[k]);
      }
    }
  }

  /** A processed event no longer decides the columns. */
  predicate Superseded(e: Event, processed: set<Key>) {
    || (e.DocumentSubmitted? && FetchKey(e) in processed)
    || (e.DocumentFetched? && ExtractKey(e) in processed)
  }

  // ---- Submission ----

  ghost predicate WellFormed(s: Submission) {
    && s.event.DocumentSubmitted? && s.event.causationId.None? && s.event.correlationId == s.event.eventId
    && s.event.tenantId == s.tenantId && s.event.documentId == s.documentId && s.event.payloadUri == s.sourceUri
  }

  lemma SubmissionFacts(db: Db, s: Submission, now: Time)
    requires Lineage(View(db)) && WellFormed(s) && CreateSubmission(db, s, now).Committed?
    ensures var f, g := View(db), View(CreateSubmission(db, s, now).db);
            var d := (s.tenantId, s.documentId);
            && d !in f.documents && (s.tenantId, s.versionId) !in f.versions
            && (forall x :: x in f.documents ==> x.1 != s.documentId)
            && s.tenantId in f.tenants && g.tenants == f.tenants && g.processed == f.processed
            && g.events == f.events + [s.event] && !EventKnown(f.events, s.event)
            && g.documents == f.documents[d := DocumentRow(s.externalId, StatusSubmitted, Some(s.versionId))]
            && g.versions == f.versions[(s.tenantId, s.versionId) := NewVersion(s)]
  {
    var f, g := View(db), View(CreateSubmission(db, s, now).db);
    assert g.events == f.events + [s.event];
    KnownIsStored(db, s.event);
  }

  lemma NoEventsYet(f: Facts, d: Ref, i: nat)
    requires Lineage(f) && d !in f.documents && i < |f.events|
    ensures Doc(f.events[i]) != d
  {
    DocumentExists(f, i);
  }

  lemma DocumentExists(f: Facts, k: nat)
    requires Lineage(f) && k < |f.events|
    ensures Doc(f.events[k]) in f.documents
  {
    assert Grounded(f, f.events[k]);
    if !f.events[k].DocumentSubmitted? {
      assert HasParent(f.events, f.events[k]);
      var j: nat :| Parented(f.events, f.events[k], j);
      assert Grounded(f, f.events[j]);
    }
  }

  ghost predicate Submits(f: Facts, g: Facts, s: Submission) {
    var d := (s.tenantId, s.documentId);
    && d !in f.documents && (s.tenantId, s.versionId) !in f.versions
    && s.tenantId in f.tenants && g.tenants == f.tenants && g.processed == f.processed
    && g.events == f.events + [s.event]
    && g.documents == f.documents[d := DocumentRow(s.externalId, StatusSubmitted, Some(s.versionId))]
    && g.versions == f.versions[(s.tenantId, s.versionId) := NewVersion(s)]
  }

  lemma SubmissionKeepsLineage(db: Db, s: Submission, now: Time)
    requires Lineage(View(db)) && Statuses(View(db)) && WellFormed(s)
    requires CreateSubmission(db, s, now).Committed?
    ensures Lineage(View(CreateSubmission(db, s, now).db)) && Statuses(View(CreateSubmission(db, s, now).db))
  {
    var f, g := View(db), View(CreateSubmission(db, s, now).db);
    SubmissionFacts(db, s, now);
    SubmissionKeepsExactlyOnce(db, s, now);
    SubmissionStepKeepsLineage(f, g, s);
    SubmissionKeepsStatuses(f, g, s);
  }

  lemma SubmissionStepKeepsLineage(f: Facts, g: Facts, s: Submission)
    requires Lineage(f) && Submits(f, g, s) && WellFormed(s) && !EventKnown(f.events, s.event)
    requires ExactlyOnce(g.processed, g.events)
    ensures Lineage(g)
  {
    SubmissionKeepsVersions(f, g, s);
    SubmissionKeepsRoots(f, g, s);
    SubmissionKeepsGround(f, g, s);
    AppendKeepsParents(f.events, s.event);
    AppendKeepsDistinct(f.events, s.event);
  }

  lemma SubmissionKeepsGround(f: Facts, g: Facts, s: Submission)
    requires Lineage(f) && Submits(f, g, s) && WellFormed(s)
    ensures AllGrounded(g)
  {
    forall i | 0 <= i < |g.events| ensures Grounded(g, g.events[i]) {
      if i < |f.events| {
        NoEventsYet(f, (s.tenantId, s.documentId), i);
        assert VersionOf(g, Doc(f.events[i])) == VersionOf(f, Doc(f.events[i]));
        assert Grounded(f, f.events[i]);
      }
    }
  }

  lemma SubmissionKeepsStatuses(f: Facts, g: Facts, s: Submission)
    requires Lineage(f) && Statuses(f) && Submits(f, g, s) && WellFormed(s)
    ensures Statuses(g)
  {
    forall i | 0 <= i < |g.events| ensures StatusOf(g, g.events[i]) {
      if i < |f.events| {
        NoEventsYet(f, (s.tenantId, s.documentId), i);
        assert StatusOf(f, f.events[i]);
        assert VersionOf(g, Doc(f.events[i])) == VersionOf(f, Doc(f.events[i]));
      }
    }
  }

  lemma SubmissionKeepsVersions(f: Facts, g: Facts, s: Submission)
    requires OneVersionEach(f) && Submits(f, g, s)
    ensures OneVersionEach(g)
  {
    forall v | v in g.versions
      ensures (v.0, g.versions[v].documentId) in g.documents
      ensures g.documents[(v.0, g.versions[v].documentId)].currentVersion == Some(v.1)
      ensures !g.versions[v].deleted && v.0 in g.tenants
    {
      if v != (s.tenantId, s.versionId) {
        assert v in f.versions;
      }
    }
    forall d | d in g.documents
      ensures g.documents[d].currentVersion.Some?
      ensures (d.0, g.documents[d].currentVersion.value) in g.versions
      ensures g.versions[(d.0, g.documents[d].currentVersion.value)].documentId == d.1
    {
      if d != (s.tenantId, s.documentId) {
        assert d in f.documents;
      }
    }
  }

  lemma SubmissionKeepsRoots(f: Facts, g: Facts, s: Submission)
    requires Lineage(f) && Submits(f, g, s) && WellFormed(s)
    ensures OneRootEach(g)
  {
    var n := |f.events|;
    forall x | x in g.documents
      ensures exists i :: 0 <= i < |g.events| && g.events[i].DocumentSubmitted? && Doc(g.events[i]) == x
    {
      if x in f.documents {
        var i :| 0 <= i < n && f.events[i].DocumentSubmitted? && Doc(f.events[i]) == x;
        assert g.events[i] == f.events[i];
      } else {
        assert g.events[n] == s.event;
      }
    }
    forall i | 0 <= i < n ensures Doc(f.events[i]) != (s.tenantId, s.documentId) {
      NoEventsYet(f, (s.tenantId, s.documentId), i);
    }
  }

  // ---- Fetch ----

  /** The submitted payload names exactly the version that was committed with it. */
  lemma SourceIsKnown(f: Facts, e: Event)
    requires OneVersionEach(f) && e.DocumentSubmitted? && IsRoot(f, e)
    ensures SourceVersions(f.versions, e.tenantId, e.documentId, e.payloadUri) == {VersionOf(f, Doc(e))}
  {
    var v := VersionOf(f, Doc(e));
    var found := SourceVersions(f.versions, e.tenantId, e.documentId, e.payloadUri);
    assert v in found;
    forall w | w in found ensures w == v {
    }
  }

  /** The two ways `DocumentFetcher.handle` calls `process`. */
  predicate FetchArguments(inspection: Option<SourceInspection>, error: Option<FetchError>) {
    && inspection.Some? == error.None?
    && (inspection.Some? ==> inspection.value.detectedMimeType == PDF_MIME)
  }

  function FetchChange(v: VersionRow, verdict: Option<FetchError>): Change {
    if verdict.Some? then
      Change(StatusFailed, InspectionInvalid, v.extraction, v.detectedMimeType, v.normalizedUri, v.manifestUri)
    else
      Change(StatusFetched, InspectionValid, v.extraction, Some(PDF_MIME), v.normalizedUri, v.manifestUri)
  }

  function FetchOutcome(e: Event, version: Id, verdict: Option<FetchError>, inspection: Option<SourceInspection>,
                        newId: Id): Event
    requires e.DocumentSubmitted? && (verdict.None? ==> inspection.Some?)
  {
    if verdict.Some? then FetchFailure(e, verdict.value, newId)
    else
      BuildDocumentFetched(newId, e.tenantId, e.documentId, version, e.payloadUri, PDF_MIME,
                           inspection.value.contentSha256, inspection.value.byteSize, e.correlationId, e.eventId)
  }

  /** On a pipeline record the transaction advances the document by one fetch outcome, and that outcome is decided
      by `FetchVerdict` alone: `unknown_source_object` never fires. */
  lemma FetchAdvances(db: Db, i: nat, inspection: Option<SourceInspection>, error: Option<FetchError>, newId: Id,
                      now: Time)
    requires Lineage(View(db)) && i < |View(db).events| && View(db).events[i].DocumentSubmitted?
    requires FetchArguments(inspection, error)
    requires var tx := Fetch(db, View(db).events[i], inspection, error, newId, now); tx.Committed? && tx.applied
    ensures var f, e := View(db), View(db).events[i];
            var v := VersionOf(f, Doc(e));
            && FetchKey(e) !in f.processed && Known(f, Doc(e))
            && var verdict := FetchVerdict(f.versions[v], inspection, error);
               var o := FetchOutcome(e, v.1, verdict, inspection, newId);
               && !EventKnown(f.events, o)
               && View(Fetch(db, e, inspection, error, newId, now).db)
                  == Advance(f, Doc(e), FetchChange(f.versions[v], verdict), FetchKey(e), o)
  {
    var f, e := View(db), View(db).events[i];
    var v := VersionOf(f, Doc(e));
    assert Grounded(f, e);
    SourceIsKnown(f, e);
    var tx := Fetch(db, e, inspection, error, newId, now);
    var db1 := db.(processed := db.processed + {FetchKey(e)});
    assert tx == FetchKnown(db1, e, v, inspection, error, newId, now);
    var verdict := FetchVerdict(f.versions[v], inspection, error);
    var o := FetchOutcome(e, v.1, verdict, inspection, newId);
    KnownIsStored(db, o);
    EnqueueAppends(db1, o, now, db, tx.db);
  }

  lemma EnqueueAppends(db1: Db, o: Event, now: Time, db: Db, after: Db)
    requires db1.outbox == db.outbox && after.outbox == db1.outbox + [NewRow(o, TopicOf(o), now)]
    ensures Events(after.outbox) == Events(db.outbox) + [o]
  {
  }

  lemma FetchKeepsLineage(db: Db, i: nat, inspection: Option<SourceInspection>, error: Option<FetchError>, newId: Id,
                          now: Time)
    requires Lineage(View(db)) && Statuses(View(db)) && i < |View(db).events| && View(db).events[i].DocumentSubmitted?
    requires FetchArguments(inspection, error)
    requires Fetch(db, View(db).events[i], inspection, error, newId, now).Committed?
    ensures var g := View(Fetch(db, View(db).events[i], inspection, error, newId, now).db);
            Lineage(g) && Statuses(g) && MovesForward(View(db), g)
  {
    if Fetch(db, View(db).events[i], inspection, error, newId, now).applied {
      FetchAdvances(db, i, inspection, error, newId, now);
      FetchAdvanceKeepsLineage(View(db), i, inspection, error, newId);
    } else {
      DuplicateFetch(db, View(db).events[i], inspection, error, newId, now);
    }
  }

  lemma DuplicateFetch(db: Db, e: Event, inspection: Option<SourceInspection>, error: Option<FetchError>, newId: Id,
                       now: Time)
    requires var tx := Fetch(db, e, inspection, error, newId, now); tx.Committed? && !tx.applied
    ensures Fetch(db, e, inspection, error, newId, now).db == db
  {
  }

  lemma FetchAdvanceKeepsLineage(f: Facts, i: nat, inspection: Option<SourceInspection>, error: Option<FetchError>,
                                 newId: Id)
    requires Lineage(f) && Statuses(f) && i < |f.events| && f.events[i].DocumentSubmitted?
    requires FetchArguments(inspection, error) && FetchKey(f.events[i]) !in f.processed && Known(f, Doc(f.events[i]))
    requires var e := f.events[i];
             var v := VersionOf(f, Doc(e));
             var verdict := FetchVerdict(f.versions[v], inspection, error);
             !EventKnown(f.events, FetchOutcome(e, v.1, verdict, inspection, newId))
    ensures var e := f.events[i];
            var v := VersionOf(f, Doc(e));
            var verdict := FetchVerdict(f.versions[v], inspection, error);
            var g := Advance(f, Doc(e), FetchChange(f.versions[v], verdict), FetchKey(e),
                             FetchOutcome(e, v.1, verdict, inspection, newId));
            Lineage(g) && Statuses(g) && MovesForward(f, g)
  {
    var e := f.events[i];
    var v := VersionOf(f, Doc(e));
    var verdict := FetchVerdict(f.versions[v], inspection, error);
    assert Grounded(f, e) && StatusOf(f, e);
    FetchStepKeepsLineage(f, i, FetchOutcome(e, v.1, verdict, inspection, newId), FetchChange(f.versions[v], verdict));
  }

  lemma FetchStepKeepsLineage(f: Facts, i: nat, o: Event, c: Change)
    requires Lineage(f) && Statuses(f) && i < |f.events| && f.events[i].DocumentSubmitted?
    requires FetchKey(f.events[i]) !in f.processed && Known(f, Doc(f.events[i]))
    requires IsFetchOutcome(o) && CausedBy(o, f.events[i]) && !EventKnown(f.events, o)
    requires o.DocumentFetched? ==> Describes(f, o)
    requires Fits(c, o)
    ensures var g := Advance(f, Doc(o), c, FetchKey(f.events[i]), o);
            Lineage(g) && Statuses(g) && MovesForward(f, g)
  {
    var e := f.events[i];
    assert Parented(f.events, o, i);
    assert HasParent(f.events, o);
    AdvanceKeepsLineage(f, Doc(o), c, FetchKey(e), o);
    FetchStepKeepsStatuses(f, i, o, c);
  }

  lemma FetchStepKeepsStatuses(f: Facts, i: nat, o: Event, c: Change)
    requires Lineage(f) && Statuses(f) && i < |f.events| && f.events[i].DocumentSubmitted?
    requires FetchKey(f.events[i]) !in f.processed && Known(f, Doc(f.events[i]))
    requires IsFetchOutcome(o) && CausedBy(o, f.events[i]) && Fits(c, o)
    ensures var g := Advance(f, Doc(o), c, FetchKey(f.events[i]), o);
            Statuses(g) && MovesForward(f, g)
  {
    var e := f.events[i];
    assert StatusOf(f, e);
    forall k | 0 <= k < |f.events| && Doc(f.events[k]) == Doc(o)
      ensures Superseded(f.events[k], f.processed + {FetchKey(e)})
    {
      OnlyRoot(f, i, k);
    }
    AdvanceKeepsStatuses(f, c, FetchKey(e), o);
  }

  // ---- Extraction ----

  function ExtractChange(v: VersionRow, outcome: Result<ExtractionStatus, ExtractError>, normalizedUri: string,
                         manifestUri: string): Change
  {
    match outcome
    case Err(_) =>
      Change(StatusFailed, v.inspection, ExtractionFailed, v.detectedMimeType, v.normalizedUri, v.manifestUri)
    case Ok(status) =>
      Change(if status == Succeeded then StatusExtracted else StatusFailed, v.inspection, status, v.detectedMimeType,
             Some(normalizedUri), Some(manifestUri))
  }

  function ExtractOutcome(e: Event, outcome: Result<ExtractionStatus, ExtractError>, normalizedUri: string,
                          manifestUri: string, newId: Id): Event
    requires e.DocumentFetched?
  {
    match outcome
    case Err(error) =>
      BuildContentExtractionRejected(newId, e.tenantId, e.documentId, e.documentVersionId, e.correlationId, e.eventId,
                                     error)
    case Ok(status) =>
      BuildContentExtracted(newId, e.tenantId, e.documentId, e.documentVersionId, e.contentSha256, normalizedUri,
                            manifestUri, status, e.correlationId, e.eventId)
  }

  /** On a pipeline record the transaction advances the document by the outcome it was given:
      `unknown_document_version` never fires. */
  lemma FinishAdvances(db: Db, m: nat, outcome: Result<ExtractionStatus, ExtractError>, normalizedUri: string,
                       manifestUri: string, newId: Id, now: Time)
    requires Lineage(View(db)) && m < |View(db).events| && View(db).events[m].DocumentFetched?
    requires var tx := Finish(db, View(db).events[m], outcome, normalizedUri, manifestUri, newId, now);
             tx.Committed? && tx.applied
    ensures var f, e := View(db), View(db).events[m];
            && ExtractKey(e) !in f.processed && Known(f, Doc(e))
            && var o := ExtractOutcome(e, outcome, normalizedUri, manifestUri, newId);
               && !EventKnown(f.events, o)
               && View(Finish(db, e, outcome, normalizedUri, manifestUri, newId, now).db)
                  == Advance(f, Doc(e),
                             ExtractChange(f.versions[VersionOf(f, Doc(e))], outcome, normalizedUri, manifestUri),
                             ExtractKey(e), o)
  {
    var f, e := View(db), View(db).events[m];
    assert Grounded(f, e);
    var v := VersionOf(f, Doc(e));
    assert f.versions[v].documentId == e.documentId && !f.versions[v].deleted;
    assert NamesLiveVersion(db, e);
    var tx := Finish(db, e, outcome, normalizedUri, manifestUri, newId, now);
    var o := ExtractOutcome(e, outcome, normalizedUri, manifestUri, newId);
    KnownIsStored(db, o);
    EnqueueAppends(db, o, now, db, tx.db);
  }

  lemma FinishKeepsLineage(db: Db, m: nat, outcome: Result<ExtractionStatus, ExtractError>, normalizedUri: string,
                           manifestUri: string, newId: Id, now: Time, tx: Tx)
    requires Lineage(View(db)) && Statuses(View(db)) && m < |View(db).events| && View(db).events[m].DocumentFetched?
    requires outcome.Ok? ==> outcome.value in {Succeeded, NeedsReview}
    requires tx == Finish(db, View(db).events[m], outcome, normalizedUri, manifestUri, newId, now) && tx.Committed?
    ensures Lineage(View(tx.db)) && Statuses(View(tx.db)) && MovesForward(View(db), View(tx.db))
  {
    var f, e := View(db), View(db).events[m];
    if tx.applied {
      FinishAdvances(db, m, outcome, normalizedUri, manifestUri, newId, now);
      ExtractAdvanceKeepsLineage(f, m, outcome, normalizedUri, manifestUri, newId);
    } else {
      DuplicateFinish(db, e, outcome, normalizedUri, manifestUri, newId, now);
    }
  }

  lemma DuplicateFinish(db: Db, e: Event, outcome: Result<ExtractionStatus, ExtractError>, normalizedUri: string,
                        manifestUri: string, newId: Id, now: Time)
    requires var tx := Finish(db, e, outcome, normalizedUri, manifestUri, newId, now); tx.Committed? && !tx.applied
    ensures Finish(db, e, outcome, normalizedUri, manifestUri, newId, now).db == db
  {
  }

  lemma ExtractAdvanceKeepsLineage(f: Facts, m: nat, outcome: Result<ExtractionStatus, ExtractError>,
                                   normalizedUri: string, manifestUri: string, newId: Id)
    requires Lineage(f) && Statuses(f) && m < |f.events| && f.events[m].DocumentFetched?
    requires ExtractKey(f.events[m]) !in f.processed && Known(f, Doc(f.events[m]))
    requires !EventKnown(f.events, ExtractOutcome(f.events[m], outcome, normalizedUri, manifestUri, newId))
    requires outcome.Ok? ==> outcome.value in {Succeeded, NeedsReview}
    ensures var e := f.events[m];
            var g := Advance(f, Doc(e),
                             ExtractChange(f.versions[VersionOf(f, Doc(e))], outcome, normalizedUri, manifestUri),
                             ExtractKey(e), ExtractOutcome(e, outcome, normalizedUri, manifestUri, newId));
            Lineage(g) && Statuses(g) && MovesForward(f, g)
  {
    var e := f.events[m];
    assert StatusOf(f, e);
    ExtractStepKeepsLineage(f, m, ExtractOutcome(e, outcome, normalizedUri, manifestUri, newId),
                            ExtractChange(f.versions[VersionOf(f, Doc(e))], outcome, normalizedUri, manifestUri));
  }

  lemma ExtractStepKeepsLineage(f: Facts, m: nat, o: Event, c: Change)
    requires Lineage(f) && Statuses(f) && m < |f.events| && f.events[m].DocumentFetched?
    requires ExtractKey(f.events[m]) !in f.processed && Known(f, Doc(f.events[m]))
    requires IsExtractOutcome(o) && CausedBy(o, f.events[m]) && !EventKnown(f.events, o)
    requires o.documentVersionId == f.events[m].documentVersionId
    requires Fits(c, o)
    ensures var g := Advance(f, Doc(o), c, ExtractKey(f.events[m]), o);
            Lineage(g) && Statuses(g) && MovesForward(f, g)
  {
    var e := f.events[m];
    assert Parented(f.events, o, m);
    assert HasParent(f.events, o);
    AdvanceKeepsLineage(f, Doc(o), c, ExtractKey(e), o);
    ExtractStepKeepsStatuses(f, m, o, c);
  }

  lemma ExtractStepKeepsStatuses(f: Facts, m: nat, o: Event, c: Change)
    requires Lineage(f) && Statuses(f) && m < |f.events| && f.events[m].DocumentFetched?
    requires ExtractKey(f.events[m]) !in f.processed && Known(f, Doc(f.events[m]))
    requires IsExtractOutcome(o) && CausedBy(o, f.events[m]) && Fits(c, o)
    ensures var g := Advance(f, Doc(o), c, ExtractKey(f.events[m]), o);
            Statuses(g) && MovesForward(f, g)
  {
    var e := f.events[m];
    assert StatusOf(f, e);
    forall k | 0 <= k < |f.events| && Doc(f.events[k]) == Doc(o)
      ensures Superseded(f.events[k], f.processed + {ExtractKey(e)})
    {
      if k != m {
        OnlyRootAndFetched(f, m, k);
      }
    }
    AdvanceKeepsStatuses(f, c, ExtractKey(e), o);
  }

  // ---- Lifecycle ----

  predicate Forward(a: DocumentStatus, b: DocumentStatus) {
    || a == b
    || (a.StatusSubmitted? && (b.StatusFetched? || b.StatusFailed?))
    || (a.StatusFetched? && (b.StatusExtracted? || b.StatusFailed?))
  }

  /** No document disappears, and none moves back. */
  ghost predicate MovesForward(f: Facts, g: Facts) {
    forall d :: d in f.documents ==> d in g.documents && Forward(f.documents[d].status, g.documents[d].status)
  }

  ghost predicate Has(f: Facts, d: Ref, i: nat) {
    i < |f.events| && Doc(f.events[i]) == d
  }

  ghost predicate HasFetched(f: Facts, d: Ref) {
    exists i: nat :: Has(f, d, i) && f.events[i].DocumentFetched?
  }

  ghost predicate HasFetchRejected(f: Facts, d: Ref) {
    exists i: nat :: Has(f, d, i) && f.events[i].DocumentFetchRejected?
  }

  ghost predicate HasExtracted(f: Facts, d: Ref, status: ExtractionStatus) {
    exists i: nat :: Has(f, d, i) && f.events[i].ContentExtracted? && f.events[i].extractionStatus == status
  }

  ghost predicate HasExtractionRejected(f: Facts, d: Ref) {
    exists i: nat :: Has(f, d, i) && f.events[i].ContentExtractionRejected?
  }

  /** `last` is the event of document `d` that decides its columns: next to it there is only the root and, under an
      extract outcome, the DocumentFetched event. */
  ghost predicate Decides(f: Facts, d: Ref, last: nat) {
    && Has(f, d, last)
    && Undecided(f, f.events[last])
    && (forall i: nat :: Has(f, d, i) ==> i == last || f.events[i].DocumentSubmitted?
                                          || (IsExtractOutcome(f.events[last]) && f.events[i].DocumentFetched?))
    && (IsExtractOutcome(f.events[last]) ==> HasFetched(f, d))
  }

  predicate Undecided(f: Facts, e: Event) {
    && (e.DocumentSubmitted? ==> FetchKey(e) !in f.processed)
    && (e.DocumentFetched? ==> ExtractKey(e) !in f.processed)
  }

  lemma LastEvent(f: Facts, d: Ref) returns (last: nat)
    requires Lineage(f) && d in f.documents
    ensures Decides(f, d, last)
  {
    var root :| 0 <= root < |f.events| && f.events[root].DocumentSubmitted? && Doc(f.events[root]) == d;
    last := root;
    if FetchKey(f.events[root]) in f.processed {
      last := EffectOf(f, root, FetchKey(f.events[root]));
      if f.events[last].DocumentFetched? && ExtractKey(f.events[last]) in f.processed {
        assert Has(f, d, last);
        last := EffectOf(f, last, ExtractKey(f.events[last]));
      }
    }
    LastDecides(f, d, last);
  }

  lemma LastDecides(f: Facts, d: Ref, last: nat)
    requires Lineage(f) && Has(f, d, last) && Undecided(f, f.events[last])
    requires IsExtractOutcome(f.events[last]) ==> HasFetched(f, d)
    ensures Decides(f, d, last)
  {
    forall k: nat | Has(f, d, k)
      ensures k == last || f.events[k].DocumentSubmitted?
              || (IsExtractOutcome(f.events[last]) && f.events[k].DocumentFetched?)
    {
      EarlierEvents(f, d, last, k);
    }
  }

  /** The effect of a processed event belongs to the same document. */
  lemma EffectOf(f: Facts, i: nat, key: Key) returns (k: nat)
    requires Lineage(f) && i < |f.events| && key in f.processed
    requires key.0 == f.events[i].tenantId && key.1 == f.events[i].eventId
    ensures k < |f.events| && EffectKey(f.events[k]) == Some(key) && Doc(f.events[k]) == Doc(f.events[i])
  {
    k :| 0 <= k < |f.events| && EffectKey(f.events[k]) == Some(key);
    assert HasParent(f.events, f.events[k]);
    var j: nat :| Parented(f.events, f.events[k], j);
    SameEvent(f, i, j);
  }

  /** Next to its last event a document only has its root and, under an extract outcome, its DocumentFetched. */
  lemma EarlierEvents(f: Facts, d: Ref, last: nat, i: nat)
    requires Lineage(f) && Has(f, d, last) && Has(f, d, i) && Undecided(f, f.events[last])
    ensures i == last || f.events[i].DocumentSubmitted?
            || (IsExtractOutcome(f.events[last]) && f.events[i].DocumentFetched?)
  {
    var e := f.events[last];
    if e.DocumentSubmitted? {
      OnlyRoot(f, last, i);
    } else if IsFetchOutcome(e) {
      if IsFetchOutcome(f.events[i]) {
        SameFetchOutcome(f, i, last);
      } else if IsExtractOutcome(f.events[i]) {
        assert HasParent(f.events, f.events[i]);
        var m: nat :| Parented(f.events, f.events[i], m);
        SameFetchOutcome(f, m, last);
        ExtractOutcomeOfFetched(f, m, i);
      }
    } else if IsExtractOutcome(f.events[i]) {
      SameExtractOutcome(f, i, last);
    } else if IsFetchOutcome(f.events[i]) {
      assert HasParent(f.events, e);
      var m: nat :| Parented(f.events, e, m);
      SameFetchOutcome(f, i, m);
    }
  }

  /** The status columns are a function of which events of the document exist. In particular a document is
      `extracted` if and only if the extraction status of its version is `succeeded`; an extraction that needs
      review stores ContentExtracted and still leaves the document `failed`. */
  lemma StatusIsFunctionOfEvents(f: Facts, d: Ref)
    requires Lineage(f) && Statuses(f) && d in f.documents
    ensures VersionOf(f, d) in f.versions
    ensures var status, v := f.documents[d].status, f.versions[VersionOf(f, d)];
            && (status.StatusSubmitted? <==> !HasFetched(f, d) && !HasFetchRejected(f, d))
            && (status.StatusExtracted? <==> HasExtracted(f, d, Succeeded))
            && (status.StatusFailed? <==> HasFetchRejected(f, d) || HasExtracted(f, d, NeedsReview)
                                          || HasExtractionRejected(f, d))
            && (status.StatusExtracted? <==> v.extraction.Succeeded?)
            && (v.inspection.InspectionValid? <==> HasFetched(f, d))
            && (v.inspection.InspectionInvalid? <==> HasFetchRejected(f, d))
            && (v.normalizedUri.Some? <==> HasExtracted(f, d, Succeeded) || HasExtracted(f, d, NeedsReview))
            && (v.manifestUri.Some? <==> HasExtracted(f, d, Succeeded) || HasExtracted(f, d, NeedsReview))
            && (v.extraction.NeedsReview? <==> HasExtracted(f, d, NeedsReview))
            && (v.extraction.ExtractionFailed? <==> HasExtractionRejected(f, d))
  {
    var last := LastEvent(f, d);
    assert StatusOf(f, f.events[last]);
    DecidedDocument(f, d, last);
    DecidedVersion(f, d, last);
  }

  lemma DecidedDocument(f: Facts, d: Ref, last: nat)
    requires Decides(f, d, last) && StatusOf(f, f.events[last])
    ensures d in f.documents
    ensures var status := f.documents[d].status;
            && (status.StatusSubmitted? <==> !HasFetched(f, d) && !HasFetchRejected(f, d))
            && (status.StatusExtracted? <==> HasExtracted(f, d, Succeeded))
            && (status.StatusFailed? <==> HasFetchRejected(f, d) || HasExtracted(f, d, NeedsReview)
                                          || HasExtractionRejected(f, d))
  {
  }

  lemma DecidedVersion(f: Facts, d: Ref, last: nat)
    requires Decides(f, d, last) && StatusOf(f, f.events[last])
    ensures d in f.documents && VersionOf(f, d) in f.versions
    ensures var status, v := f.documents[d].status, f.versions[VersionOf(f, d)];
            && (status.StatusExtracted? <==> v.extraction.Succeeded?)
            && (v.inspection.InspectionValid? <==> HasFetched(f, d))
            && (v.inspection.InspectionInvalid? <==> HasFetchRejected(f, d))
            && (v.normalizedUri.Some? <==> HasExtracted(f, d, Succeeded) || HasExtracted(f, d, NeedsReview))
            && (v.manifestUri.Some? <==> HasExtracted(f, d, Succeeded) || HasExtracted(f, d, NeedsReview))
            && (v.extraction.NeedsReview? <==> HasExtracted(f, d, NeedsReview))
            && (v.extraction.ExtractionFailed? <==> HasExtractionRejected(f, d))
  {
  }

  /** A committed submission has one root, at most one fetch outcome, and at most one extract outcome, the latter
      only next to a DocumentFetched event. */
  lemma Conservation(f: Facts, d: Ref)
    requires Lineage(f) && d in f.documents
    ensures exists r: nat :: Has(f, d, r) && f.events[r].DocumentSubmitted?
                             && forall i: nat :: Has(f, d, i) && f.events[i].DocumentSubmitted? ==> i == r
    ensures forall i: nat, j: nat
              | Has(f, d, i) && Has(f, d, j) && IsFetchOutcome(f.events[i]) && IsFetchOutcome(f.events[j]) :: i == j
    ensures forall i: nat, j: nat
              | Has(f, d, i) && Has(f, d, j) && IsExtractOutcome(f.events[i]) && IsExtractOutcome(f.events[j]) :: i == j
    ensures (exists i: nat :: Has(f, d, i) && IsExtractOutcome(f.events[i])) ==> HasFetched(f, d)
  {
    var r :| 0 <= r < |f.events| && f.events[r].DocumentSubmitted? && Doc(f.events[r]) == d;
    assert Has(f, d, r);
    forall i: nat, j: nat | Has(f, d, i) && Has(f, d, j) && IsFetchOutcome(f.events[i]) && IsFetchOutcome(f.events[j])
      ensures i == j
    {
      SameFetchOutcome(f, i, j);
    }
    forall i: nat, j: nat
      | Has(f, d, i) && Has(f, d, j) && IsExtractOutcome(f.events[i]) && IsExtractOutcome(f.events[j])
      ensures i == j
    {
      SameExtractOutcome(f, i, j);
    }
    if i: nat :| Has(f, d, i) && IsExtractOutcome(f.events[i]) {
      assert HasParent(f.events, f.events[i]);
      var m: nat :| Parented(f.events, f.events[i], m);
      assert Has(f, d, m);
    }
  }

  /** From any stored event, following causation_id reaches the DocumentSubmitted event of the same tenant and
      document in at most two hops, and its event id is the correlation id of the whole chain. */
  lemma CausalChain(f: Facts, i: nat) returns (chain: seq<nat>)
    requires Lineage(f) && i < |f.events|
    ensures 1 <= |chain| <= 3 && chain[0] == i
    ensures forall k :: 0 <= k < |chain| ==> chain[k] < |f.events|
    ensures forall k :: 0 <= k < |chain| - 1 ==>
              f.events[chain[k]].causationId == Some(f.events[chain[k + 1]].eventId)
    ensures var root := f.events[chain[|chain| - 1]];
            && root.DocumentSubmitted? && root.causationId.None?
            && forall k :: 0 <= k < |chain| ==>
                 && Doc(f.events[chain[k]]) == Doc(root)
                 && f.events[chain[k]].correlationId == root.eventId
  {
    chain := [i];
    var last := i;
    if !f.events[i].DocumentSubmitted? {
      last := ParentOf(f, i);
      chain := [i, last];
      if !f.events[last].DocumentSubmitted? {
        var middle := last;
        last := ParentOf(f, middle);
        chain := [i, middle, last];
      }
    }
    assert Grounded(f, f.events[last]);
  }

  lemma ParentOf(f: Facts, i: nat) returns (j: nat)
    requires Lineage(f) && i < |f.events| && !f.events[i].DocumentSubmitted?
    ensures Parented(f.events, f.events[i], j)
  {
    assert HasParent(f.events, f.events[i]);
    j :| Parented(f.events, f.events[i], j);
  }
}
