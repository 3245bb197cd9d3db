/** Every step of the pipeline keeps the invariant. */
module PipelineSteps {
  import opened Domain
  import opened Ledger
  import opened Provenance
  import opened SourceKeys
  import opened Pipeline
  import opened PipelineInvariant
  import Consumption
  import Outbox
  import Streams
  import Relay

  // ---- The outbox under the publishers ----

  lemma RelayKeepsRows(r: Relay.State, now: Time, b: Relay.Step)
    requires !b.Insert? && Relay.Enabled(r, now, b)
    ensures |Relay.Next(r, now, b).rows| == |r.rows| && RowsKept(r.rows, Relay.Next(r, now, b).rows)
  {
  }

  lemma RelayExtends(r: Relay.State, now: Time, b: Relay.Step)
    requires Relay.Enabled(r, now, b)
    ensures Relay.Extends(r, Relay.Next(r, now, b))
  {
  }

  // ---- The tables ----

  /** A transaction leaves the outbox alone or appends one new row to it. */
  ghost predicate Appends(a: seq<Outbox.Row>, b: seq<Outbox.Row>, now: Time) {
    || b == a
    || (|b| == |a| + 1 && b == a + [Outbox.NewRow(b[|a|].event, TopicOf(b[|a|].event), now)])
  }

  lemma FetchAppends(db: Db, e: Event, inspection: Option<Streams.SourceInspection>, error: Option<FetchError>,
                     newId: Id, now: Time)
    requires Fetch(db, e, inspection, error, newId, now).Committed?
    ensures Appends(db.outbox, Fetch(db, e, inspection, error, newId, now).db.outbox, now)
  {
  }

  lemma FinishAppends(db: Db, e: Event, outcome: Result<ExtractionStatus, ExtractError>, normalizedUri: string,
                      manifestUri: string, newId: Id, now: Time)
    requires Finish(db, e, outcome, normalizedUri, manifestUri, newId, now).Committed?
    ensures Appends(db.outbox, Finish(db, e, outcome, normalizedUri, manifestUri, newId, now).db.outbox, now)
  {
  }

  lemma AppendKeepsTopics(a: Db, b: Db, now: Time)
    requires TablesInv(a) && Appends(a.outbox, b.outbox, now) && Lineage(View(b)) && Statuses(View(b))
    ensures TablesInv(b) && RowsKept(a.outbox, b.outbox)
  {
  }

  lemma AppendKeepsRelay(r: Relay.State, was: Time, now: Time, rows: seq<Outbox.Row>)
    requires Relay.Inv(r, was) && was <= now && Appends(r.rows, rows, now)
    ensures Relay.Inv(r.(rows := rows), now)
    ensures Relay.Extends(r, r.(rows := rows))
  {
    if rows == r.rows {
      assert r.(rows := rows) == r;
      Relay.LaterIsExclusive(r, was, now);
    } else {
      var e := rows[|r.rows|].event;
      assert Relay.Next(r, now, Relay.Insert(e)) == r.(rows := rows);
      Relay.StepKeepsInv(r, was, now, Relay.Insert(e));
    }
  }

  lemma AdvanceKeepsDb(a: Db, b: Db, d: Ref, change: Change, key: Key, o: Event)
    requires Known(View(a), d) && View(b) == Advance(View(a), d, change, key, o) && RowsKept(a.outbox, b.outbox)
    ensures DbKept(a, b)
    ensures b.documents.Keys == a.documents.Keys && b.versions.Keys == a.versions.Keys
  {
    assert b.documents == Advance(View(a), d, change, key, o).documents;
    assert b.versions == Advance(View(a), d, change, key, o).versions;
  }

  lemma SubmissionKeepsDb(a: Db, s: Submission, now: Time)
    requires Lineage(View(a)) && WellFormed(s) && CreateSubmission(a, s, now).Committed?
    ensures DbKept(a, CreateSubmission(a, s, now).db) && Appends(a.outbox, CreateSubmission(a, s, now).db.outbox, now)
  {
    SubmissionFacts(a, s, now);
  }

  // ---- The source store ----

  lemma StoreStays(c: Config, s: State, t: State)
    requires StoreInv(c, s) && t.sources == s.sources && t.issued == s.issued && t.calls == s.calls
    requires t.db.documents.Keys == s.db.documents.Keys && t.db.versions.Keys == s.db.versions.Keys
    requires VersionsKept(s.db, t.db)
    ensures StoreInv(c, t)
  {
    forall d | d in t.db.documents ensures d in s.db.documents {
      assert d in t.db.documents.Keys;
    }
    forall v | v in t.db.versions ensures SourceStored(c, t.sources, v, t.db.versions[v]) {
      assert v in t.db.versions.Keys;
      assert SourceStored(c, s.sources, v, s.db.versions[v]);
    }
    forall d | d in t.calls ensures CallOk(c, t, d, t.calls[d]) {
      assert CallOk(c, s, d, s.calls[d]);
    }
  }

  lemma CallOwnsKey(c: Config, s: State, d: Id)
    requires StoreInv(c, s) && d in s.calls
    ensures OwnerOf(KeyFor(s.calls[d])) == d && DocumentPrefix(s.calls[d].tenantId, d) <= KeyFor(s.calls[d])
  {
    var call := s.calls[d];
    assert CallOk(c, s, d, call);
    PrefixNamesOwner(call.tenantId, d, KeyFor(call));
  }

  /** The key of a committed version belongs to its document. */
  lemma VersionOwnsKey(c: Config, s: State, v: Ref)
    requires StoreInv(c, s) && v in s.db.versions
    ensures OwnerOf(KeyIn(c.bucket, s.db.versions[v].sourceUri)) == s.db.versions[v].documentId
    ensures KeyIn(c.bucket, s.db.versions[v].sourceUri) in s.sources
  {
    assert SourceStored(c, s.sources, v, s.db.versions[v]);
    PrefixNamesOwner(v.0, s.db.versions[v].documentId, KeyIn(c.bucket, s.db.versions[v].sourceUri));
  }

  /** No request that still runs touches the object of a committed version. */
  lemma CallsAvoidVersions(c: Config, s: State, d: Id, v: Ref)
    requires StoreInv(c, s) && OneVersionEach(View(s.db)) && d in s.calls && v in s.db.versions
    ensures KeyFor(s.calls[d]) != KeyIn(c.bucket, s.db.versions[v].sourceUri)
  {
    CallOwnsKey(c, s, d);
    VersionOwnsKey(c, s, v);
    assert CallOk(c, s, d, s.calls[d]);
    assert v in View(s.db).versions;
    assert (v.0, s.db.versions[v].documentId) in s.db.documents;
  }

  /** Writing or removing the object of a running request. */
  lemma ObjectKeepsSources(c: Config, s: State, d: Id, sources: map<string, Bytes>)
    requires StoreInv(c, s) && OneVersionEach(View(s.db)) && d in s.calls
    requires forall k :: k != KeyFor(s.calls[d]) ==> (k in sources <==> k in s.sources)
    requires forall k :: k in sources && k != KeyFor(s.calls[d]) ==> sources[k] == s.sources[k]
    ensures SourcesKept(c, s.db.versions, s.sources, sources)
    ensures forall v :: v in s.db.versions ==> SourceStored(c, sources, v, s.db.versions[v])
  {
    forall v | v in s.db.versions
      ensures BytesOf(c, sources, s.db.versions[v]) == BytesOf(c, s.sources, s.db.versions[v])
      ensures SourceStored(c, sources, v, s.db.versions[v])
    {
      CallsAvoidVersions(c, s, d, v);
      assert SourceStored(c, s.sources, v, s.db.versions[v]);
    }
  }

  /** The other requests do not notice. */
  lemma OtherCallsStay(c: Config, s: State, t: State, d: Id)
    requires StoreInv(c, s) && d in s.calls && s.issued <= t.issued
    requires forall x :: x in t.db.documents ==> x in s.db.documents || x.1 == d
    requires forall k :: k != KeyFor(s.calls[d]) ==> (k in t.sources <==> k in s.sources)
    requires forall k :: k in t.sources && k != KeyFor(s.calls[d]) ==> t.sources[k] == s.sources[k]
    requires forall q :: q in t.calls && q != d ==> q in s.calls && t.calls[q] == s.calls[q]
    ensures forall q :: q in t.calls && q != d ==> CallOk(c, t, q, t.calls[q])
  {
    CallOwnsKey(c, s, d);
    forall q | q in t.calls && q != d ensures CallOk(c, t, q, t.calls[q]) {
      CallOwnsKey(c, s, q);
      assert CallOk(c, s, q, s.calls[q]);
    }
  }

  lemma PutKeepsOneObject(sources: map<string, Bytes>, issued: set<Id>, key: string, content: Bytes)
    requires OneObjectEach(sources, issued) && OwnerOf(key) in issued && Unclaimed(sources, OwnerOf(key))
    ensures OneObjectEach(sources[key := content], issued)
  {
  }

  lemma PutIsAlone(c: Config, s: State, d: Id)
    requires StoreInv(c, s) && d in s.calls && s.calls[d].phase.Uploading?
    ensures OneObjectEach(s.sources[KeyFor(s.calls[d]) := s.calls[d].content], s.issued)
    ensures CallOk(c, s, d, s.calls[d])
  {
    assert CallOk(c, s, d, s.calls[d]);
    CallOwnsKey(c, s, d);
    PutKeepsOneObject(s.sources, s.issued, KeyFor(s.calls[d]), s.calls[d].content);
  }

  lemma StoredCallIsOk(c: Config, s: State, t: State, d: Id)
    requires StoreInv(c, s) && d in s.calls && t.db == s.db && t.issued == s.issued
    requires t.sources == s.sources[KeyFor(s.calls[d]) := s.calls[d].content]
    requires d in t.calls && t.calls[d] == s.calls[d].(phase := Stored)
    ensures CallOk(c, t, d, t.calls[d])
  {
    assert CallOk(c, s, d, s.calls[d]);
  }

  /** `put`, whether it returns, or raises with or without the object in place. */
  lemma PutKeepsStore(c: Config, s: State, t: State, d: Id)
    requires StoreInv(c, s) && OneVersionEach(View(s.db)) && d in s.calls && s.calls[d].phase.Uploading?
    requires t.db == s.db && t.issued == s.issued
    requires t.sources == s.sources[KeyFor(s.calls[d]) := s.calls[d].content]
    requires t.calls == s.calls[d := s.calls[d].(phase := Stored)] || t.calls == s.calls - {d}
    ensures StoreInv(c, t) && SourcesKept(c, s.db.versions, s.sources, t.sources)
  {
    PutIsAlone(c, s, d);
    ObjectKeepsSources(c, s, d, t.sources);
    OtherCallsStay(c, s, t, d);
    if d in t.calls {
      StoredCallIsOk(c, s, t, d);
    }
  }

  /** The compensating delete never removes an object that a committed row references. */
  lemma DeleteKeepsStore(c: Config, s: State, t: State, d: Id)
    requires StoreInv(c, s) && OneVersionEach(View(s.db)) && d in s.calls
    requires t.db == s.db && t.issued == s.issued
    requires t.sources == s.sources - {KeyFor(s.calls[d])} && t.calls == s.calls - {d}
    ensures StoreInv(c, t) && SourcesKept(c, s.db.versions, s.sources, t.sources)
  {
    ObjectKeepsSources(c, s, d, t.sources);
    OtherCallsStay(c, s, t, d);
  }

  /** A request that ends, or turns to its compensation, without touching the store. */
  lemma CallEndsKeepsStore(c: Config, s: State, t: State, d: Id)
    requires StoreInv(c, s) && d in s.calls && t.db == s.db && t.issued == s.issued && t.sources == s.sources
    requires t.calls == s.calls - {d} || t.calls == s.calls[d := s.calls[d].(phase := Compensating)]
    ensures StoreInv(c, t)
  {
    OtherCallsStay(c, s, t, d);
    if d in t.calls {
      CompensatingCallIsOk(c, s, t, d);
    }
  }

  lemma OwnObjectOnly(c: Config, s: State, d: Id)
    requires StoreInv(c, s) && d in s.calls
    ensures CallOk(c, s, d, s.calls[d]) && OnlyKey(s.sources, d, KeyFor(s.calls[d]))
  {
    var key := KeyFor(s.calls[d]);
    assert CallOk(c, s, d, s.calls[d]);
    CallOwnsKey(c, s, d);
    if s.calls[d].phase.Stored? {
      forall k | k in s.sources && OwnerOf(k) == d ensures k == key {
        assert OwnerOf(k) == OwnerOf(key);
      }
    }
  }

  lemma CompensatingCallIsOk(c: Config, s: State, t: State, d: Id)
    requires StoreInv(c, s) && d in s.calls && t.db == s.db && t.issued == s.issued && t.sources == s.sources
    requires d in t.calls && t.calls[d] == s.calls[d].(phase := Compensating)
    ensures CallOk(c, t, d, t.calls[d])
  {
    OwnObjectOnly(c, s, d);
  }

  lemma ReceiveKeepsStore(c: Config, s: State, t: State, call: Call)
    requires StoreInv(c, s) && call.phase.Uploading? && |call.content| <= c.apiMax && call.documentId !in s.issued
    requires IsUuid(call.tenantId) && IsUuid(call.documentId) && IsUuid(call.versionId)
    requires t.db == s.db && t.sources == s.sources && t.issued == s.issued + {call.documentId}
    requires t.calls == s.calls[call.documentId := call]
    ensures StoreInv(c, t)
  {
    forall q | q in t.calls ensures CallOk(c, t, q, t.calls[q]) {
      if q != call.documentId {
        assert CallOk(c, s, q, s.calls[q]);
      }
    }
  }

  lemma SubmissionWellFormed(c: Config, s: State, d: Id)
    requires StoreInv(c, s) && d in s.calls
    ensures WellFormed(SubmissionFor(c, s.calls[d]))
  {
  }

  lemma NewVersionIsStored(c: Config, s: State, d: Id)
    requires StoreInv(c, s) && d in s.calls && s.calls[d].phase.Stored?
    ensures var call := s.calls[d];
            SourceStored(c, s.sources, (call.tenantId, call.versionId), NewVersion(SubmissionFor(c, call)))
  {
    assert CallOk(c, s, d, s.calls[d]);
    CallOwnsKey(c, s, d);
    KeyInUri(c.bucket, KeyFor(s.calls[d]));
  }

  lemma VersionKeepsStore(c: Config, s: State, t: State, d: Id)
    requires StoreInv(c, s) && d in s.calls
    requires var call := s.calls[d];
             && SourceStored(c, s.sources, (call.tenantId, call.versionId), NewVersion(SubmissionFor(c, call)))
             && t.db.documents.Keys == s.db.documents.Keys + {(call.tenantId, d)}
             && t.db.versions == s.db.versions[(call.tenantId, call.versionId) := NewVersion(SubmissionFor(c, call))]
    requires t.issued == s.issued && t.sources == s.sources && t.calls == s.calls - {d}
    ensures StoreInv(c, t)
  {
    assert CallOk(c, s, d, s.calls[d]);
    OtherCallsStay(c, s, t, d);
  }

  lemma CommitKeepsStore(c: Config, s: State, t: State, d: Id, now: Time)
    requires StoreInv(c, s) && Lineage(View(s.db)) && d in s.calls && s.calls[d].phase.Stored?
    requires CreateSubmission(s.db, SubmissionFor(c, s.calls[d]), now).Committed?
    requires t.db == CreateSubmission(s.db, SubmissionFor(c, s.calls[d]), now).db
    requires t.issued == s.issued && t.sources == s.sources && t.calls == s.calls - {d}
    ensures StoreInv(c, t)
  {
    NewVersionIsStored(c, s, d);
    SubmissionWellFormed(c, s, d);
    SubmissionFacts(s.db, SubmissionFor(c, s.calls[d]), now);
    VersionKeepsStore(c, s, t, d);
  }

  // ---- Reading the source ----

  /** `get` of a committed version reads that version's own object, or raises: whatever the file name, no other
      object can be under the key it asks for. It raises if and only if the file name breaks the URI. */
  lemma ReadsOwnObject(c: Config, s: State, v: Ref)
    requires StoreInv(c, s) && v in s.db.versions
    ensures var key := KeyIn(c.bucket, s.db.versions[v].sourceUri);
            ReadSource(c, s.sources, s.db.versions[v].sourceUri)
            == if exists ch :: ch in key[PREFIX_LENGTH..] && Breaking(ch) then None else Some(s.sources[key])
  {
    var row := s.db.versions[v];
    var key, prefix := KeyIn(c.bucket, row.sourceUri), DocumentPrefix(v.0, row.documentId);
    assert SourceStored(c, s.sources, v, row);
    PrefixIsPlain(v.0, row.documentId);
    var tail := key[PREFIX_LENGTH..];
    assert key == prefix + tail;
    RecoveredKey(c.bucket, prefix, tail);
    SurvivesWhole(tail);
    PrefixNamesOwner(v.0, row.documentId, key);
    PrefixNamesOwner(v.0, row.documentId, prefix + Surviving(tail));
    assert (prefix + Surviving(tail))[PREFIX_LENGTH..] == Surviving(tail);
  }

  /** What the log holds on a topic is an event of that topic. */
  lemma TopicTellsType(s: State, i: nat)
    requires TablesInv(s.db) && Relay.LogIsSent(RelayOf(s)) && Readable(s, i)
    ensures s.log[i].lane.topic == TopicOf(EventAt(s, i))
    ensures s.log[i].lane.topic == SubmittedTopic ==> EventAt(s, i).DocumentSubmitted?
    ensures s.log[i].lane.topic == FetchedTopic ==> EventAt(s, i).DocumentFetched?
  {
  }

  lemma InspectionIsFaithful(c: Config, v: VersionRow, content: Bytes, first: nat)
    requires Streams.FirstChunk(content, first, c.fetcherMax)
    requires c.sha(content) == v.contentSha256 && |content| == v.byteSize
    ensures match Streams.Inspect(content, first, c.fetcherMax, c.sha, c.parse)
            case Inspected(source) => InputsOk(c, v, content, FetchInputs(Some(source), None))
            case Invalid(error) => InputsOk(c, v, content, FetchInputs(None, Some(error)))
            case InspectionRaised => true
  {
  }

  lemma BeginFetchIsOk(c: Config, s: State, i: nat, first: nat, owned: bool)
    requires TablesInv(s.db) && StoreInv(c, s) && Relay.LogIsSent(RelayOf(s))
    requires Readable(s, i) && s.log[i].lane.topic == SubmittedTopic
    requires FetchInputsFor(c, s.sources, EventAt(s, i), first).Some?
    ensures FetchRunOk(c, s, FetchRun(i, FetchInputsFor(c, s.sources, EventAt(s, i), first).value, owned))
  {
    TopicTellsType(s, i);
    var e := EventAt(s, i);
    EventIsGrounded(s, i);
    var v := VersionOf(View(s.db), Doc(e));
    assert SourceStored(c, s.sources, v, s.db.versions[v]);
    ReadsOwnObject(c, s, v);
    InspectionIsFaithful(c, s.db.versions[v], BytesOf(c, s.sources, s.db.versions[v]), first);
  }

  lemma EventIsGrounded(s: State, i: nat)
    requires TablesInv(s.db) && Readable(s, i)
    ensures Grounded(View(s.db), EventAt(s, i)) && EventAt(s, i) in View(s.db).events
  {
    var r := s.wire[s.log[i].send].item.row;
    assert View(s.db).events[r] == EventAt(s, i);
  }

  lemma FetchedVersion(c: Config, s: State, i: nat)
    requires TablesInv(s.db) && OutcomesInv(c, s) && Readable(s, i) && EventAt(s, i).DocumentFetched?
    ensures var e := EventAt(s, i);
            && VersionRef(e) in s.db.versions && VersionRef(e) == VersionOf(View(s.db), Doc(e))
            && Describes(View(s.db), e) && EventOk(c, s, e)
  {
    EventIsGrounded(s, i);
    var r := s.wire[s.log[i].send].item.row;
    assert EventOk(c, s, s.db.outbox[r].event);
  }

  lemma ExtractionIsFaithful(c: Config, v: VersionRow, content: Bytes, conversion: Streams.Conversion)
    requires c.sha(content) == v.contentSha256 && |content| == v.byteSize && Streams.IsPdf(content)
    ensures match Streams.Extract(content, c.extractMax, v.contentSha256, c.sha, conversion)
            case Extracted(result) => OutcomeOk(c, v, Ok(result.status))
            case Rejected(error) => OutcomeOk(c, v, Err(error))
            case ExtractionRaised => true
  {
  }

  lemma BeginExtractIsOk(c: Config, s: State, i: nat, conversion: Streams.Conversion, owned: bool)
    requires TablesInv(s.db) && StoreInv(c, s) && OutcomesInv(c, s) && Relay.LogIsSent(RelayOf(s))
    requires Readable(s, i) && s.log[i].lane.topic == FetchedTopic
    requires ExtractOutcomeFor(c, s.sources, EventAt(s, i), conversion).Some?
    ensures ExtractRunOk(c, s,
                         ExtractRun(i, ExtractOutcomeFor(c, s.sources, EventAt(s, i), conversion).value, 0, owned))
  {
    TopicTellsType(s, i);
    FetchedVersion(c, s, i);
    var v := VersionRef(EventAt(s, i));
    assert SourceStored(c, s.sources, v, s.db.versions[v]);
    ReadsOwnObject(c, s, v);
    ExtractionIsFaithful(c, s.db.versions[v], BytesOf(c, s.sources, s.db.versions[v]), conversion);
  }

  // ---- Outcomes ----

  /** A transaction whose new event and whose rewritten version row are as they should be. */
  lemma OutcomesStay(c: Config, s: State, t: State)
    requires Kept(c, s, t) && OutcomesInv(c, s)
    requires forall r :: |s.db.outbox| <= r < |t.db.outbox| ==> EventOk(c, t, t.db.outbox[r].event)
    requires forall v :: v in t.db.versions && (v !in s.db.versions || t.db.versions[v] != s.db.versions[v])
                         ==> ReferenceOk(c, t.artifacts.Keys, v, t.db.versions[v])
    ensures OutcomesInv(c, t)
  {
    forall r | 0 <= r < |t.db.outbox| ensures EventOk(c, t, t.db.outbox[r].event) {
      if r < |s.db.outbox| {
        assert EventOk(c, s, s.db.outbox[r].event);
        EventOkStays(c, s, t, s.db.outbox[r].event);
      }
    }
    forall v | v in t.db.versions ensures ReferenceOk(c, t.artifacts.Keys, v, t.db.versions[v]) {
      if v in s.db.versions && t.db.versions[v] == s.db.versions[v] {
        assert ReferenceOk(c, s.artifacts.Keys, v, s.db.versions[v]);
      }
    }
  }

  // ---- The fetcher's transaction ----

  function RowOf(s: State, i: nat): (r: nat)
    requires Readable(s, i)
    ensures r < |s.db.outbox| && View(s.db).events[r] == EventAt(s, i)
  {
    s.wire[s.log[i].send].item.row
  }

  /** What the transaction does to the tables, said without its statements: nothing, or one step of the document. */
  ghost predicate FetchStores(db: Db, e: Event, inputs: FetchInputs, newId: Id, after: Db) {
    || after == db
    || (e.DocumentSubmitted? && Known(View(db), Doc(e)) && FetchArguments(inputs.inspection, inputs.error)
        && var v := VersionOf(View(db), Doc(e));
           var verdict := FetchVerdict(db.versions[v], inputs.inspection, inputs.error);
           && v.0 == e.tenantId
           && View(after) == Advance(View(db), Doc(e), FetchChange(db.versions[v], verdict), FetchKey(e),
                                     FetchOutcome(e, v.1, verdict, inputs.inspection, newId)))
  }

  lemma FetchIsStored(db: Db, i: nat, inputs: FetchInputs, newId: Id, now: Time, tx: Tx)
    requires Lineage(View(db)) && i < |View(db).events| && View(db).events[i].DocumentSubmitted?
    requires FetchArguments(inputs.inspection, inputs.error)
    requires tx == Fetch(db, View(db).events[i], inputs.inspection, inputs.error, newId, now) && tx.Committed?
    ensures FetchStores(db, View(db).events[i], inputs, newId, tx.db)
  {
    if tx.applied {
      FetchAdvances(db, i, inputs.inspection, inputs.error, newId, now);
      assert Grounded(View(db), View(db).events[i]);
    }
  }

  lemma FetchTxKeepsTables(c: Config, s: State, r: nat, newId: Id, now: Time, db: Db)
    requires TablesInv(s.db) && r in s.fetches && FetchRunOk(c, s, s.fetches[r])
    requires FetchTx(s, r, newId, now).Committed? && db == FetchTx(s, r, newId, now).db
    ensures TablesInv(db) && RowsKept(s.db.outbox, db.outbox) && Appends(s.db.outbox, db.outbox, now)
    ensures FetchKey(EventAt(s, s.fetches[r].record)) in db.processed
    ensures MovesForward(View(s.db), View(db))
    ensures FetchStores(s.db, EventAt(s, s.fetches[r].record), s.fetches[r].inputs, newId, db)
  {
    var run := s.fetches[r];
    var e, tx := EventAt(s, run.record), FetchTx(s, r, newId, now);
    FetchKeepsLineage(s.db, RowOf(s, run.record), run.inputs.inspection, run.inputs.error, newId, now);
    FetchAppends(s.db, e, run.inputs.inspection, run.inputs.error, newId, now);
    AppendKeepsTopics(s.db, tx.db, now);
    FetchHasOneEffect(s.db, e, run.inputs.inspection, run.inputs.error, newId, now);
    FetchIsStored(s.db, RowOf(s, run.record), run.inputs, newId, now, tx);
  }

  lemma FetchedKeepsDb(db: Db, e: Event, inputs: FetchInputs, newId: Id, after: Db)
    requires FetchStores(db, e, inputs, newId, after) && RowsKept(db.outbox, after.outbox)
    ensures DbKept(db, after) && after.documents.Keys == db.documents.Keys && after.versions.Keys == db.versions.Keys
  {
    if after != db {
      var v := VersionOf(View(db), Doc(e));
      var verdict := FetchVerdict(db.versions[v], inputs.inspection, inputs.error);
      AdvanceKeepsDb(db, after, Doc(e), FetchChange(db.versions[v], verdict), FetchKey(e),
                     FetchOutcome(e, v.1, verdict, inputs.inspection, newId));
    }
  }

  /** The outcome a fetch stores is what its inputs say of the version. */
  lemma FetchOutcomeIsOk(c: Config, t: State, e: Event, version: VersionRow, inputs: FetchInputs, newId: Id)
    requires e.DocumentSubmitted? && Known(View(t.db), Doc(e)) && VersionOf(View(t.db), Doc(e)).0 == e.tenantId
    requires var w := t.db.versions[VersionOf(View(t.db), Doc(e))];
             SameSource(version, w) && InputsOk(c, version, BytesOf(c, t.sources, w), inputs)
    ensures var verdict := FetchVerdict(version, inputs.inspection, inputs.error);
            EventOk(c, t, FetchOutcome(e, VersionOf(View(t.db), Doc(e)).1, verdict, inputs.inspection, newId))
  {
  }

  lemma FetchedKeepsOutcomes(c: Config, s: State, e: Event, inputs: FetchInputs, newId: Id, t: State)
    requires OutcomesInv(c, s) && Kept(c, s, t) && t.artifacts == s.artifacts
    requires FetchStores(s.db, e, inputs, newId, t.db) && Known(View(s.db), Doc(e))
    requires var v := s.db.versions[VersionOf(View(s.db), Doc(e))]; InputsOk(c, v, BytesOf(c, s.sources, v), inputs)
    ensures OutcomesInv(c, t)
  {
    if t.db == s.db {
      OutcomesStay(c, s, t);
    } else {
      var v := VersionOf(View(s.db), Doc(e));
      var verdict := FetchVerdict(s.db.versions[v], inputs.inspection, inputs.error);
      DocumentStays(s.db, t.db, Doc(e));
      VersionStays(c, s, t, v);
      FetchOutcomeIsOk(c, t, e, s.db.versions[v], inputs, newId);
      assert ReferenceOk(c, s.artifacts.Keys, v, s.db.versions[v]);
      AdvancedOutcome(c, s, t, Doc(e), FetchChange(s.db.versions[v], verdict), FetchKey(e),
                      FetchOutcome(e, v.1, verdict, inputs.inspection, newId));
    }
  }

  /** After a worker's transaction it is enough to look at the one new event and the one version it wrote. */
  lemma AdvancedOutcome(c: Config, s: State, t: State, d: Ref, change: Change, key: Key, o: Event)
    requires OutcomesInv(c, s) && Kept(c, s, t) && Known(View(s.db), d)
    requires View(t.db) == Advance(View(s.db), d, change, key, o)
    requires EventOk(c, t, o)
    requires var v := VersionOf(View(s.db), d);
             ReferenceOk(c, t.artifacts.Keys, v, Changed(s.db.versions[v], change))
    ensures OutcomesInv(c, t)
  {
    var g := Advance(View(s.db), d, change, key, o);
    assert View(t.db).events == g.events && View(t.db).versions == g.versions;
    assert |t.db.outbox| == |s.db.outbox| + 1 && t.db.outbox[|s.db.outbox|].event == View(t.db).events[|s.db.outbox|];
    OutcomesStay(c, s, t);
  }

  // ---- The extractor's transaction ----

  ghost predicate ExtractStores(db: Db, e: Event, outcome: Result<ExtractionStatus, ExtractError>,
                                normalizedUri: string, manifestUri: string, newId: Id, after: Db)
  {
    || after == db
    || (e.DocumentFetched? && Known(View(db), Doc(e)) && VersionOf(View(db), Doc(e)) == VersionRef(e)
        && View(after) == Advance(View(db), Doc(e),
                                  ExtractChange(db.versions[VersionRef(e)], outcome, normalizedUri, manifestUri),
                                  ExtractKey(e), ExtractOutcome(e, outcome, normalizedUri, manifestUri, newId)))
  }

  lemma FinishIsStored(db: Db, m: nat, outcome: Result<ExtractionStatus, ExtractError>, normalizedUri: string,
                          manifestUri: string, newId: Id, now: Time, tx: Tx)
    requires Lineage(View(db)) && m < |View(db).events| && View(db).events[m].DocumentFetched?
    requires tx == Finish(db, View(db).events[m], outcome, normalizedUri, manifestUri, newId, now) && tx.Committed?
    ensures ExtractStores(db, View(db).events[m], outcome, normalizedUri, manifestUri, newId, tx.db)
  {
    if tx.applied {
      FinishAdvances(db, m, outcome, normalizedUri, manifestUri, newId, now);
      assert Grounded(View(db), View(db).events[m]);
    }
  }

  function NormalizedUriFor(c: Config, e: Event): string
    requires e.DocumentFetched?
  {
    ObjectUri(c.artifactBucket, NormalizedFor(e))
  }

  function ManifestUriFor(c: Config, e: Event): string
    requires e.DocumentFetched?
  {
    ObjectUri(c.artifactBucket, ManifestFor(e))
  }

  lemma FinishTxKeepsTables(c: Config, s: State, r: nat, newId: Id, now: Time, db: Db)
    requires TablesInv(s.db) && r in s.runs && ExtractRunOk(c, s, s.runs[r])
    requires FinishTx(c, s, r, newId, now).Committed? && db == FinishTx(c, s, r, newId, now).db
    ensures TablesInv(db) && RowsKept(s.db.outbox, db.outbox) && Appends(s.db.outbox, db.outbox, now)
    ensures ExtractKey(EventAt(s, s.runs[r].record)) in db.processed
    ensures MovesForward(View(s.db), View(db))
    ensures var e := EventAt(s, s.runs[r].record);
            ExtractStores(s.db, e, Report(s.runs[r].outcome), NormalizedUriFor(c, e), ManifestUriFor(c, e), newId, db)
  {
    var run := s.runs[r];
    var e, tx := EventAt(s, run.record), FinishTx(c, s, r, newId, now);
    var outcome, n, m := Report(run.outcome), NormalizedUriFor(c, e), ManifestUriFor(c, e);
    FinishKeepsLineage(s.db, RowOf(s, run.record), outcome, n, m, newId, now, tx);
    FinishAppends(s.db, e, outcome, n, m, newId, now);
    AppendKeepsTopics(s.db, tx.db, now);
    FinishHasOneEffect(s.db, e, outcome, n, m, newId, now);
    FinishIsStored(s.db, RowOf(s, run.record), outcome, n, m, newId, now, tx);
  }

  lemma ExtractedKeepsDb(db: Db, e: Event, outcome: Result<ExtractionStatus, ExtractError>, normalizedUri: string,
                         manifestUri: string, newId: Id, after: Db)
    requires ExtractStores(db, e, outcome, normalizedUri, manifestUri, newId, after)
    requires RowsKept(db.outbox, after.outbox)
    ensures DbKept(db, after) && after.documents.Keys == db.documents.Keys && after.versions.Keys == db.versions.Keys
  {
    if after != db {
      AdvanceKeepsDb(db, after, Doc(e), ExtractChange(db.versions[VersionRef(e)], outcome, normalizedUri, manifestUri),
                     ExtractKey(e), ExtractOutcome(e, outcome, normalizedUri, manifestUri, newId));
    }
  }

  /** Both artifacts were stored before the transaction that references them. */
  lemma ExtractOutcomeIsOk(c: Config, t: State, e: Event, version: VersionRow,
                           outcome: Result<ExtractionStatus, ExtractError>, newId: Id)
    requires e.DocumentFetched? && VersionRef(e) in t.db.versions && SameSource(version, t.db.versions[VersionRef(e)])
    requires version.contentSha256 == e.contentSha256 && OutcomeOk(c, version, outcome)
    requires outcome.Ok? ==> NormalizedFor(e) in t.artifacts && ManifestFor(e) in t.artifacts
    requires ReferenceOk(c, t.artifacts.Keys, VersionRef(e), version)
    ensures EventOk(c, t, ExtractOutcome(e, outcome, NormalizedUriFor(c, e), ManifestUriFor(c, e), newId))
    ensures var change := ExtractChange(version, outcome, NormalizedUriFor(c, e), ManifestUriFor(c, e));
            ReferenceOk(c, t.artifacts.Keys, VersionRef(e), Changed(version, change))
  {
  }

  lemma ExtractedKeepsOutcomes(c: Config, s: State, e: Event, outcome: Result<ExtractionStatus, ExtractError>,
                               newId: Id, t: State)
    requires OutcomesInv(c, s) && Kept(c, s, t) && t.artifacts == s.artifacts && e.DocumentFetched?
    requires ExtractStores(s.db, e, outcome, NormalizedUriFor(c, e), ManifestUriFor(c, e), newId, t.db)
    requires VersionRef(e) in s.db.versions && s.db.versions[VersionRef(e)].contentSha256 == e.contentSha256
    requires OutcomeOk(c, s.db.versions[VersionRef(e)], outcome)
    requires outcome.Ok? ==> NormalizedFor(e) in s.artifacts && ManifestFor(e) in s.artifacts
    ensures OutcomesInv(c, t)
  {
    if t.db == s.db {
      OutcomesStay(c, s, t);
    } else {
      var version := s.db.versions[VersionRef(e)];
      VersionStays(c, s, t, VersionRef(e));
      ExtractOutcomeIsOk(c, t, e, version, outcome, newId);
      AdvancedOutcome(c, s, t, Doc(e), ExtractChange(version, outcome, NormalizedUriFor(c, e), ManifestUriFor(c, e)),
                      ExtractKey(e), ExtractOutcome(e, outcome, NormalizedUriFor(c, e), ManifestUriFor(c, e), newId));
    }
  }

  // ---- Offsets ----

  /** Steps that leave both loops alone. */
  lemma OffsetsStay(c: Config, s: State, t: State)
    requires Kept(c, s, t) && OffsetsInv(c, s)
    requires t.fetcher == s.fetcher && t.extractor == s.extractor
    ensures OffsetsInv(c, t)
  {
    FetcherStays(c, s, t);
    ExtractorStays(c, s, t);
  }

  lemma FetcherStays(c: Config, s: State, t: State)
    requires Kept(c, s, t) && FetcherInv(s) && t.fetcher == s.fetcher
    ensures FetcherInv(t)
  {
    HandledGrows(c, s, t, DocumentFetcher);
    Consumption.GrowKeepsInv(Lanes(s.log), Lanes(t.log), SubmittedTopic, HandledBy(s, DocumentFetcher),
                 HandledBy(t, DocumentFetcher), s.fetcher);
  }

  lemma ExtractorStays(c: Config, s: State, t: State)
    requires Kept(c, s, t) && t.extractor == s.extractor
    ensures ExtractorInv(s) ==> ExtractorInv(t)
  {
    if ExtractorInv(s) {
      HandledGrows(c, s, t, ContentExtractor);
      Consumption.GrowKeepsInv(Lanes(s.log), Lanes(t.log), FetchedTopic, HandledBy(s, ContentExtractor),
                   HandledBy(t, ContentExtractor), s.extractor);
    }
  }

  /** The fetcher's handler returns once the key of the record is committed. */
  lemma FetcherReturns(c: Config, s: State, t: State, i: nat)
    requires Kept(c, s, t) && Readable(s, i) && FetchKey(EventAt(s, i)) in t.db.processed
    requires t.fetcher == s.fetcher || (i in s.fetcher.inflight && t.fetcher == Consumption.Return(s.fetcher, i))
    requires OffsetsInv(c, s) && t.extractor == s.extractor
    ensures OffsetsInv(c, t)
  {
    ExtractorStays(c, s, t);
    FetcherStays(c, s, t.(fetcher := s.fetcher));
    EventStays(c, s, t, i);
    if t.fetcher != s.fetcher {
      Consumption.ReturnKeepsInv(Lanes(t.log), SubmittedTopic, HandledBy(t, DocumentFetcher), s.fetcher, i);
    }
  }

  lemma ExtractorReturns(c: Config, s: State, t: State, i: nat)
    requires Kept(c, s, t) && Readable(s, i) && ExtractKey(EventAt(s, i)) in t.db.processed
    requires t.extractor == s.extractor
             || (i in s.extractor.inflight && t.extractor == Consumption.Return(s.extractor, i))
    requires OffsetsInv(c, s) && c.slots == 1 && t.fetcher == s.fetcher
    ensures OffsetsInv(c, t)
  {
    FetcherStays(c, s, t);
    ExtractorStays(c, s, t.(extractor := s.extractor));
    EventStays(c, s, t, i);
    if t.extractor != s.extractor {
      Consumption.ReturnKeepsInv(Lanes(t.log), FetchedTopic, HandledBy(t, ContentExtractor), s.extractor, i);
    }
  }

  // ---- Every step ----

  /** The tables, the wire and the log as they were, some time later. */
  lemma SameTables(s: State, t: State)
    requires TablesInv(s.db) && Relay.Inv(RelayOf(s), s.now)
    requires t.db == s.db && RelayOf(t) == RelayOf(s) && s.now <= t.now
    ensures TablesInv(t.db) && Relay.Inv(RelayOf(t), t.now)
    ensures DbKept(s.db, t.db) && Relay.Extends(RelayOf(s), RelayOf(t))
  {
    Relay.LaterIsExclusive(RelayOf(s), s.now, t.now);
  }

  predicate SameObjects(s: State, t: State) {
    t.sources == s.sources && t.issued == s.issued && t.calls == s.calls && s.artifacts.Keys <= t.artifacts.Keys
  }

  predicate SameRuns(s: State, t: State) {
    t.fetches == s.fetches && t.runs == s.runs
  }

  predicate SameLoops(s: State, t: State) {
    t.fetcher == s.fetcher && t.extractor == s.extractor
  }

  /** Steps that leave the tables, the requests and the source store alone. */
  lemma SameStores(c: Config, s: State, t: State)
    requires TablesInv(s.db) && Relay.Inv(RelayOf(s), s.now) && StoreInv(c, s) && OutcomesInv(c, s)
    requires t.db == s.db && RelayOf(t) == RelayOf(s) && s.now <= t.now && SameObjects(s, t)
    ensures TablesInv(t.db) && Relay.Inv(RelayOf(t), t.now) && Kept(c, s, t) && StoreInv(c, t) && OutcomesInv(c, t)
  {
    SameTables(s, t);
    StoreStays(c, s, t);
    OutcomesStay(c, s, t);
  }

  /** Only delivery columns moved. */
  lemma RowsKeepTables(a: Db, b: Db)
    requires TablesInv(a) && b == a.(outbox := b.outbox) && |b.outbox| == |a.outbox| && RowsKept(a.outbox, b.outbox)
    ensures TablesInv(b) && DbKept(a, b) && View(b) == View(a)
  {
    assert Events(b.outbox) == Events(a.outbox);
  }

  lemma RelayingKeepsTables(c: Config, s: State, t: State, b: Relay.Step)
    requires TablesInv(s.db) && Relay.Inv(RelayOf(s), s.now) && s.now < t.now && SameObjects(s, t)
    requires !b.Insert? && Relay.Enabled(RelayOf(s), t.now, b) && RelayOf(t) == Relay.Next(RelayOf(s), t.now, b)
    requires t.db == s.db.(outbox := t.db.outbox)
    ensures TablesInv(t.db) && Relay.Inv(RelayOf(t), t.now) && Kept(c, s, t) && View(t.db) == View(s.db)
    ensures |t.db.outbox| == |s.db.outbox|
  {
    Relay.StepKeepsInv(RelayOf(s), s.now, t.now, b);
    RelayKeepsRows(RelayOf(s), t.now, b);
    RelayExtends(RelayOf(s), t.now, b);
    RowsKeepTables(s.db, t.db);
  }

  lemma RelayingKeepsInv(c: Config, s: State, t: State, b: Relay.Step)
    requires Inv(c, s) && s.now < t.now && SameObjects(s, t) && SameRuns(s, t) && SameLoops(s, t)
    requires !b.Insert? && Relay.Enabled(RelayOf(s), t.now, b) && RelayOf(t) == Relay.Next(RelayOf(s), t.now, b)
    requires t.db == s.db.(outbox := t.db.outbox)
    ensures Kept(c, s, t) && Inv(c, t) && View(t.db) == View(s.db)
  {
    RelayingKeepsTables(c, s, t, b);
    StoreStays(c, s, t);
    RunsStay(c, s, t);
    OutcomesStay(c, s, t);
    OffsetsStay(c, s, t);
  }

  /** The steps of a request before and after its transaction. */
  lemma ObjectStepKeepsInv(c: Config, s: State, t: State)
    requires Inv(c, s) && s.now < t.now && t.db == s.db && RelayOf(t) == RelayOf(s)
    requires t.artifacts == s.artifacts && SameRuns(s, t) && SameLoops(s, t)
    requires StoreInv(c, t) && SourcesKept(c, s.db.versions, s.sources, t.sources)
    ensures Kept(c, s, t) && Inv(c, t)
  {
    SameTables(s, t);
    RunsStay(c, s, t);
    OutcomesStay(c, s, t);
    OffsetsStay(c, s, t);
  }

  lemma SubmissionKeepsTables(c: Config, s: State, t: State, d: Id)
    requires TablesInv(s.db) && Relay.Inv(RelayOf(s), s.now) && StoreInv(c, s) && OutcomesInv(c, s) && s.now < t.now
    requires d in s.calls && CreateSubmission(s.db, SubmissionFor(c, s.calls[d]), t.now).Committed?
    requires t.db == CreateSubmission(s.db, SubmissionFor(c, s.calls[d]), t.now).db
    requires RelayOf(t) == RelayOf(s).(rows := t.db.outbox)
    requires t.sources == s.sources && t.artifacts == s.artifacts
    ensures TablesInv(t.db) && Relay.Inv(RelayOf(t), t.now) && Kept(c, s, t) && OutcomesInv(c, t)
  {
    var sub := SubmissionFor(c, s.calls[d]);
    SubmissionWellFormed(c, s, d);
    SubmissionKeepsLineage(s.db, sub, t.now);
    SubmissionKeepsDb(s.db, sub, t.now);
    AppendKeepsTopics(s.db, t.db, t.now);
    AppendKeepsRelay(RelayOf(s), s.now, t.now, t.db.outbox);
    NewSubmissionIsOk(c, s, t, sub);
  }

  lemma NewSubmissionIsOk(c: Config, s: State, t: State, sub: Submission)
    requires OutcomesInv(c, s) && Kept(c, s, t) && Lineage(View(s.db)) && WellFormed(sub)
    requires CreateSubmission(s.db, sub, t.now).Committed? && t.db == CreateSubmission(s.db, sub, t.now).db
    ensures OutcomesInv(c, t)
  {
    SubmissionFacts(s.db, sub, t.now);
    OutcomesStay(c, s, t);
  }

  lemma SubmissionKeepsInv(c: Config, s: State, t: State, d: Id)
    requires Inv(c, s) && s.now < t.now && d in s.calls && s.calls[d].phase.Stored?
    requires CreateSubmission(s.db, SubmissionFor(c, s.calls[d]), t.now).Committed?
    requires t.db == CreateSubmission(s.db, SubmissionFor(c, s.calls[d]), t.now).db
    requires RelayOf(t) == RelayOf(s).(rows := t.db.outbox)
    requires t.sources == s.sources && t.artifacts == s.artifacts && t.issued == s.issued && t.calls == s.calls - {d}
    requires SameRuns(s, t) && SameLoops(s, t)
    ensures Kept(c, s, t) && Inv(c, t)
  {
    SubmissionKeepsTables(c, s, t, d);
    CommitKeepsStore(c, s, t, d, t.now);
    RunsStay(c, s, t);
    OffsetsStay(c, s, t);
  }

  /** What a worker's transaction leaves alone. */
  predicate WorkerStep(s: State, t: State) {
    s.now < t.now && SameObjects(s, t) && t.artifacts == s.artifacts && RelayOf(t) == RelayOf(s).(rows := t.db.outbox)
  }

  /** The other handlers and the source store do not notice. */
  lemma RestStays(c: Config, s: State, t: State)
    requires StoreInv(c, s) && RunsInv(c, s) && Kept(c, s, t) && SameObjects(s, t)
    requires t.db.documents.Keys == s.db.documents.Keys && t.db.versions.Keys == s.db.versions.Keys
    requires forall r :: r in t.fetches ==> r in s.fetches && t.fetches[r] == s.fetches[r]
    requires forall r :: r in t.runs ==> r in s.runs && t.runs[r] == s.runs[r]
    ensures StoreInv(c, t) && RunsInv(c, t)
  {
    StoreStays(c, s, t);
    RunsStay(c, s, t);
  }

  lemma FetchKeepsOutcomes(c: Config, s: State, t: State, r: nat, newId: Id)
    requires OutcomesInv(c, s) && Kept(c, s, t) && t.artifacts == s.artifacts
    requires r in s.fetches && FetchRunOk(c, s, s.fetches[r])
    requires FetchStores(s.db, EventAt(s, s.fetches[r].record), s.fetches[r].inputs, newId, t.db)
    ensures OutcomesInv(c, t)
  {
    FetchedKeepsOutcomes(c, s, EventAt(s, s.fetches[r].record), s.fetches[r].inputs, newId, t);
  }

  lemma FetchKeepsTables(c: Config, s: State, t: State, r: nat, newId: Id)
    requires TablesInv(s.db) && OutcomesInv(c, s) && Relay.Inv(RelayOf(s), s.now) && WorkerStep(s, t)
    requires r in s.fetches && FetchRunOk(c, s, s.fetches[r])
    requires FetchTx(s, r, newId, t.now).Committed? && t.db == FetchTx(s, r, newId, t.now).db
    ensures TablesInv(t.db) && Relay.Inv(RelayOf(t), t.now) && Kept(c, s, t) && OutcomesInv(c, t)
    ensures FetchKey(EventAt(s, s.fetches[r].record)) in t.db.processed && MovesForward(View(s.db), View(t.db))
    ensures t.db.documents.Keys == s.db.documents.Keys && t.db.versions.Keys == s.db.versions.Keys
  {
    var run := s.fetches[r];
    FetchTxKeepsTables(c, s, r, newId, t.now, t.db);
    FetchedKeepsDb(s.db, EventAt(s, run.record), run.inputs, newId, t.db);
    AppendKeepsRelay(RelayOf(s), s.now, t.now, t.db.outbox);
    FetchKeepsOutcomes(c, s, t, r, newId);
  }

  lemma FetchKeepsRest(c: Config, s: State, t: State, i: nat)
    requires Inv(c, s) && WorkerStep(s, t) && Readable(s, i) && FetchKey(EventAt(s, i)) in t.db.processed
    requires TablesInv(t.db) && Relay.Inv(RelayOf(t), t.now) && Kept(c, s, t) && OutcomesInv(c, t)
    requires t.db.documents.Keys == s.db.documents.Keys && t.db.versions.Keys == s.db.versions.Keys
    requires forall q :: q in t.fetches ==> q in s.fetches && t.fetches[q] == s.fetches[q]
    requires t.runs == s.runs && t.extractor == s.extractor
    requires t.fetcher == s.fetcher || (i in s.fetcher.inflight && t.fetcher == Consumption.Return(s.fetcher, i))
    ensures Inv(c, t)
  {
    RestStays(c, s, t);
    FetcherReturns(c, s, t, i);
  }

  lemma FinishKeepsOutcomes(c: Config, s: State, t: State, r: nat, newId: Id)
    requires TablesInv(s.db) && OutcomesInv(c, s) && Kept(c, s, t) && t.artifacts == s.artifacts
    requires r in s.runs && ExtractRunOk(c, s, s.runs[r]) && (s.runs[r].outcome.Ok? ==> s.runs[r].stored == 2)
    requires var e := EventAt(s, s.runs[r].record);
             ExtractStores(s.db, e, Report(s.runs[r].outcome), NormalizedUriFor(c, e), ManifestUriFor(c, e), newId,
                           t.db)
    ensures OutcomesInv(c, t)
  {
    FetchedVersion(c, s, s.runs[r].record);
    ExtractedKeepsOutcomes(c, s, EventAt(s, s.runs[r].record), Report(s.runs[r].outcome), newId, t);
  }

  lemma FinishKeepsTables(c: Config, s: State, t: State, r: nat, newId: Id)
    requires TablesInv(s.db) && OutcomesInv(c, s) && Relay.Inv(RelayOf(s), s.now) && WorkerStep(s, t)
    requires r in s.runs && ExtractRunOk(c, s, s.runs[r]) && (s.runs[r].outcome.Ok? ==> s.runs[r].stored == 2)
    requires FinishTx(c, s, r, newId, t.now).Committed? && t.db == FinishTx(c, s, r, newId, t.now).db
    ensures TablesInv(t.db) && Relay.Inv(RelayOf(t), t.now) && Kept(c, s, t) && OutcomesInv(c, t)
    ensures ExtractKey(EventAt(s, s.runs[r].record)) in t.db.processed && MovesForward(View(s.db), View(t.db))
    ensures t.db.documents.Keys == s.db.documents.Keys && t.db.versions.Keys == s.db.versions.Keys
  {
    var run := s.runs[r];
    var e := EventAt(s, run.record);
    FinishTxKeepsTables(c, s, r, newId, t.now, t.db);
    ExtractedKeepsDb(s.db, e, Report(run.outcome), NormalizedUriFor(c, e), ManifestUriFor(c, e), newId, t.db);
    AppendKeepsRelay(RelayOf(s), s.now, t.now, t.db.outbox);
    FinishKeepsOutcomes(c, s, t, r, newId);
  }

  lemma FinishKeepsRest(c: Config, s: State, t: State, i: nat)
    requires Inv(c, s) && WorkerStep(s, t) && Readable(s, i) && ExtractKey(EventAt(s, i)) in t.db.processed
    requires TablesInv(t.db) && Relay.Inv(RelayOf(t), t.now) && Kept(c, s, t) && OutcomesInv(c, t)
    requires t.db.documents.Keys == s.db.documents.Keys && t.db.versions.Keys == s.db.versions.Keys
    requires forall q :: q in t.runs ==> q in s.runs && t.runs[q] == s.runs[q]
    requires t.fetches == s.fetches && t.fetcher == s.fetcher
    requires t.extractor == s.extractor
             || (i in s.extractor.inflight && t.extractor == Consumption.Return(s.extractor, i))
    ensures Inv(c, t)
  {
    RestStays(c, s, t);
    if c.slots == 1 {
      ExtractorReturns(c, s, t, i);
    } else {
      FetcherStays(c, s, t);
    }
  }

  /** Handlers that start, store an artifact, or die. */
  lemma RunStepKeepsInv(c: Config, s: State, t: State)
    requires Inv(c, s) && s.now < t.now && t.db == s.db && RelayOf(t) == RelayOf(s)
    requires SameObjects(s, t) && SameLoops(s, t)
    requires forall r :: r in t.fetches ==> (r in s.fetches && t.fetches[r] == s.fetches[r])
                                            || FetchRunOk(c, s, t.fetches[r])
    requires forall r :: r in t.runs ==> (r in s.runs && t.runs[r] == s.runs[r]) || ExtractRunOk(c, t, t.runs[r])
    ensures Kept(c, s, t) && Inv(c, t)
  {
    SameStores(c, s, t);
    forall r | r in t.fetches && FetchRunOk(c, s, t.fetches[r]) ensures FetchRunOk(c, t, t.fetches[r]) {
      FetchRunStays(c, s, t, t.fetches[r]);
    }
    RunsStay(c, s, t);
    OffsetsStay(c, s, t);
  }

  /** Polls, commits and restarts. */
  lemma LoopStepKeepsInv(c: Config, s: State, t: State)
    requires Inv(c, s) && s.now < t.now && t.db == s.db && RelayOf(t) == RelayOf(s) && SameObjects(s, t)
    requires t.fetches == s.fetches || t.fetches == DisownedFetches(s.fetches)
    requires t.runs == s.runs || t.runs == Disowned(s.runs)
    requires OffsetsInv(c, t)
    ensures Kept(c, s, t) && Inv(c, t)
  {
    SameStores(c, s, t);
    RunsStay(c, s, t);
  }

  // ---- All of them ----

  lemma RequestKeepsStore(c: Config, s: State, now: Time, q: RequestStep, t: State)
    requires StoreInv(c, s) && OneVersionEach(View(s.db)) && !q.CommitSubmission?
    requires RequestEnabled(c, s, q) && t == RequestNext(c, s, now, q)
    ensures StoreInv(c, t) && SourcesKept(c, s.db.versions, s.sources, t.sources)
  {
    match q {
      case Receive(call) => ReceiveKeepsStore(c, s, t, call);
      case PutObject(d) => PutKeepsStore(c, s, t, d);
      case PutFails(d, kept) =>
        if kept {
          PutKeepsStore(c, s, t, d);
        } else {
          CallEndsKeepsStore(c, s, t, d);
        }
      case CommitAborts(d) => CallEndsKeepsStore(c, s, t, d);
      case DeleteObject(d) => DeleteKeepsStore(c, s, t, d);
      case LoseCall(d) => CallEndsKeepsStore(c, s, t, d);
    }
  }

  lemma CallEndsKeepsInv(c: Config, s: State, t: State, d: Id)
    requires Inv(c, s) && s.now < t.now && d in s.calls
    requires t == s.(now := t.now, calls := s.calls[d := s.calls[d].(phase := Compensating)])
    ensures Kept(c, s, t) && Inv(c, t)
  {
    CallEndsKeepsStore(c, s, t, d);
    ObjectStepKeepsInv(c, s, t);
  }

  lemma CommitFrame(c: Config, s: State, now: Time, q: RequestStep, t: State)
    requires s.now < now && q.CommitSubmission? && RequestEnabled(c, s, q) && t == RequestNext(c, s, now, q)
    ensures q.d in s.calls && s.calls[q.d].phase.Stored? && t.now == now
    ensures CreateSubmission(s.db, SubmissionFor(c, s.calls[q.d]), now).Raised? ==>
              t == s.(now := now, calls := s.calls[q.d := s.calls[q.d].(phase := Compensating)])
    ensures CreateSubmission(s.db, SubmissionFor(c, s.calls[q.d]), now).Committed? ==>
              && t.db == CreateSubmission(s.db, SubmissionFor(c, s.calls[q.d]), now).db
              && RelayOf(t) == RelayOf(s).(rows := t.db.outbox)
              && t.sources == s.sources && t.artifacts == s.artifacts && t.issued == s.issued
              && t.calls == s.calls - {q.d} && SameRuns(s, t) && SameLoops(s, t)
  {
  }

  lemma CommitKeepsInv(c: Config, s: State, now: Time, q: RequestStep, t: State)
    requires Inv(c, s) && s.now < now && q.CommitSubmission?
    requires RequestEnabled(c, s, q) && t == RequestNext(c, s, now, q)
    ensures Kept(c, s, t) && Inv(c, t)
  {
    CommitFrame(c, s, now, q, t);
    if CreateSubmission(s.db, SubmissionFor(c, s.calls[q.d]), now).Committed? {
      SubmissionKeepsInv(c, s, t, q.d);
    } else {
      CallEndsKeepsInv(c, s, t, q.d);
    }
  }

  lemma RequestKeepsInv(c: Config, s: State, now: Time, q: RequestStep, t: State)
    requires Inv(c, s) && s.now < now && RequestEnabled(c, s, q) && t == RequestNext(c, s, now, q)
    ensures Kept(c, s, t) && Inv(c, t)
  {
    if q.CommitSubmission? {
      CommitKeepsInv(c, s, now, q, t);
    } else {
      RequestKeepsStore(c, s, now, q, t);
      ObjectStepKeepsInv(c, s, t);
    }
  }

  lemma ArtifactIsStored(c: Config, s: State, t: State, r: nat, stored: nat)
    requires r in s.runs && ExtractRunOk(c, s, s.runs[r]) && t.db == s.db && RelayOf(t) == RelayOf(s)
    requires s.artifacts.Keys <= t.artifacts.Keys && stored == s.runs[r].stored + 1 <= 2
    requires var e := EventAt(s, s.runs[r].record);
             (if stored == 1 then NormalizedFor(e) else ManifestFor(e)) in t.artifacts
    ensures ExtractRunOk(c, t, s.runs[r].(stored := stored))
  {
    assert Readable(t, s.runs[r].record) && EventAt(t, s.runs[r].record) == EventAt(s, s.runs[r].record);
  }

  lemma FetchAdded(c: Config, s: State, t: State, r: nat, run: FetchRun)
    requires Inv(c, s) && s.now < t.now && t.db == s.db && RelayOf(t) == RelayOf(s)
    requires SameObjects(s, t) && SameLoops(s, t)
    requires t.fetches == s.fetches[r := run] && FetchRunOk(c, s, run) && t.runs == s.runs
    ensures Kept(c, s, t) && Inv(c, t)
  {
    RunStepKeepsInv(c, s, t);
  }

  lemma RunAdded(c: Config, s: State, t: State, r: nat, run: ExtractRun)
    requires Inv(c, s) && s.now < t.now && t.db == s.db && RelayOf(t) == RelayOf(s)
    requires SameObjects(s, t) && SameLoops(s, t)
    requires t.runs == s.runs[r := run] && ExtractRunOk(c, t, run) && t.fetches == s.fetches
    ensures Kept(c, s, t) && Inv(c, t)
  {
    RunStepKeepsInv(c, s, t);
  }

  lemma RunsDropped(c: Config, s: State, t: State)
    requires Inv(c, s) && s.now < t.now && t.db == s.db && RelayOf(t) == RelayOf(s)
    requires SameObjects(s, t) && SameLoops(s, t)
    requires forall r :: r in t.fetches ==> r in s.fetches && t.fetches[r] == s.fetches[r]
    requires forall r :: r in t.runs ==> r in s.runs && t.runs[r] == s.runs[r]
    ensures Kept(c, s, t) && Inv(c, t)
  {
    RunStepKeepsInv(c, s, t);
  }

  lemma BeginFetchKeepsInv(c: Config, s: State, now: Time, h: HandlerStep, t: State)
    requires Inv(c, s) && s.now < now && h.BeginFetch?
    requires HandlerEnabled(c, s, now, h) && t == HandlerNext(c, s, now, h)
    ensures Kept(c, s, t) && Inv(c, t)
  {
    BeginFetchIsOk(c, s, h.i, h.first, h.owned);
    FetchAdded(c, s, t, h.r, t.fetches[h.r]);
  }

  lemma BeginExtractKeepsInv(c: Config, s: State, now: Time, h: HandlerStep, t: State)
    requires Inv(c, s) && s.now < now && h.BeginExtract?
    requires HandlerEnabled(c, s, now, h) && t == HandlerNext(c, s, now, h)
    ensures Kept(c, s, t) && Inv(c, t)
  {
    BeginExtractIsOk(c, s, h.i, h.conversion, h.owned);
    SameRunOk(c, s, t, t.runs[h.r]);
    RunAdded(c, s, t, h.r, t.runs[h.r]);
  }

  lemma SameRunOk(c: Config, s: State, t: State, run: ExtractRun)
    requires ExtractRunOk(c, s, run) && t.db == s.db && RelayOf(t) == RelayOf(s) && s.artifacts.Keys <= t.artifacts.Keys
    ensures ExtractRunOk(c, t, run)
  {
    assert Readable(t, run.record) && EventAt(t, run.record) == EventAt(s, run.record);
  }

  lemma StoreFrame(c: Config, s: State, now: Time, h: HandlerStep, t: State) returns (stored: nat)
    requires (h.StoreNormalized? || h.StoreManifest?) && HandlerEnabled(c, s, now, h) && t == HandlerNext(c, s, now, h)
    ensures t.now == now && t.db == s.db && RelayOf(t) == RelayOf(s) && SameObjects(s, t) && SameLoops(s, t)
    ensures t.fetches == s.fetches && h.r in s.runs && Readable(s, s.runs[h.r].record)
    ensures t.runs == s.runs[h.r := s.runs[h.r].(stored := stored)] && stored == s.runs[h.r].stored + 1 <= 2
    ensures var e := EventAt(s, s.runs[h.r].record);
            e.DocumentFetched? && (if stored == 1 then NormalizedFor(e) else ManifestFor(e)) in t.artifacts
  {
    stored := if h.StoreNormalized? then 1 else 2;
  }

  lemma ArtifactKeepsInv(c: Config, s: State, t: State, r: nat, stored: nat)
    requires Inv(c, s) && s.now < t.now && t.db == s.db && RelayOf(t) == RelayOf(s)
    requires SameObjects(s, t) && SameLoops(s, t) && t.fetches == s.fetches && r in s.runs
    requires Readable(s, s.runs[r].record) && EventAt(s, s.runs[r].record).DocumentFetched?
    requires t.runs == s.runs[r := s.runs[r].(stored := stored)] && stored == s.runs[r].stored + 1 <= 2
    requires var e := EventAt(s, s.runs[r].record);
             (if stored == 1 then NormalizedFor(e) else ManifestFor(e)) in t.artifacts
    ensures Kept(c, s, t) && Inv(c, t)
  {
    assert ExtractRunOk(c, s, s.runs[r]);
    ArtifactIsStored(c, s, t, r, stored);
    RunAdded(c, s, t, r, t.runs[r]);
  }

  lemma StoreKeepsInv(c: Config, s: State, now: Time, h: HandlerStep, t: State)
    requires Inv(c, s) && s.now < now && (h.StoreNormalized? || h.StoreManifest?)
    requires HandlerEnabled(c, s, now, h) && t == HandlerNext(c, s, now, h)
    ensures Kept(c, s, t) && Inv(c, t)
  {
    var stored := StoreFrame(c, s, now, h, t);
    ArtifactKeepsInv(c, s, t, h.r, stored);
  }

  lemma FinishFetchFrame(c: Config, s: State, now: Time, h: HandlerStep, t: State)
    requires s.now < now && h.FinishFetch? && HandlerEnabled(c, s, now, h) && t == HandlerNext(c, s, now, h)
    ensures t.now == now && WorkerStep(s, t) && h.r in s.fetches && Readable(s, s.fetches[h.r].record)
    ensures FetchTx(s, h.r, h.newId, now).Committed? && t.db == FetchTx(s, h.r, h.newId, now).db
    ensures t.fetches == s.fetches - {h.r} && t.runs == s.runs && t.extractor == s.extractor
    ensures var i := s.fetches[h.r].record;
            t.fetcher == s.fetcher || (i in s.fetcher.inflight && t.fetcher == Consumption.Return(s.fetcher, i))
  {
  }

  lemma FinishExtractFrame(c: Config, s: State, now: Time, h: HandlerStep, t: State)
    requires s.now < now && h.FinishExtract? && HandlerEnabled(c, s, now, h) && t == HandlerNext(c, s, now, h)
    ensures t.now == now && WorkerStep(s, t) && h.r in s.runs && Readable(s, s.runs[h.r].record)
    ensures s.runs[h.r].outcome.Ok? ==> s.runs[h.r].stored == 2
    ensures FinishTx(c, s, h.r, h.newId, now).Committed? && t.db == FinishTx(c, s, h.r, h.newId, now).db
    ensures t.runs == s.runs - {h.r} && t.fetches == s.fetches && t.fetcher == s.fetcher
    ensures var i := s.runs[h.r].record;
            t.extractor == s.extractor
            || (i in s.extractor.inflight && t.extractor == Consumption.Return(s.extractor, i))
  {
  }

  lemma FetchKeepsTablesInv(c: Config, s: State, t: State, r: nat, newId: Id)
    requires Inv(c, s) && WorkerStep(s, t) && r in s.fetches && Readable(s, s.fetches[r].record)
    requires FetchTx(s, r, newId, t.now).Committed? && t.db == FetchTx(s, r, newId, t.now).db
    ensures TablesInv(t.db) && Relay.Inv(RelayOf(t), t.now) && Kept(c, s, t) && OutcomesInv(c, t)
    ensures FetchKey(EventAt(s, s.fetches[r].record)) in t.db.processed && MovesForward(View(s.db), View(t.db))
    ensures t.db.documents.Keys == s.db.documents.Keys && t.db.versions.Keys == s.db.versions.Keys
  {
    FetchKeepsTables(c, s, t, r, newId);
  }

  lemma FetchKeepsInv(c: Config, s: State, t: State, r: nat, newId: Id)
    requires Inv(c, s) && WorkerStep(s, t) && r in s.fetches && Readable(s, s.fetches[r].record)
    requires FetchTx(s, r, newId, t.now).Committed? && t.db == FetchTx(s, r, newId, t.now).db
    requires forall q :: q in t.fetches ==> q in s.fetches && t.fetches[q] == s.fetches[q]
    requires t.runs == s.runs && t.extractor == s.extractor
    requires var i := s.fetches[r].record;
             t.fetcher == s.fetcher || (i in s.fetcher.inflight && t.fetcher == Consumption.Return(s.fetcher, i))
    ensures Kept(c, s, t) && Inv(c, t) && MovesForward(View(s.db), View(t.db))
  {
    FetchKeepsTablesInv(c, s, t, r, newId);
    FetchKeepsRest(c, s, t, s.fetches[r].record);
  }

  lemma FinishKeepsTablesInv(c: Config, s: State, t: State, r: nat, newId: Id)
    requires Inv(c, s) && WorkerStep(s, t) && r in s.runs && Readable(s, s.runs[r].record)
    requires s.runs[r].outcome.Ok? ==> s.runs[r].stored == 2
    requires FinishTx(c, s, r, newId, t.now).Committed? && t.db == FinishTx(c, s, r, newId, t.now).db
    ensures TablesInv(t.db) && Relay.Inv(RelayOf(t), t.now) && Kept(c, s, t) && OutcomesInv(c, t)
    ensures ExtractKey(EventAt(s, s.runs[r].record)) in t.db.processed && MovesForward(View(s.db), View(t.db))
    ensures t.db.documents.Keys == s.db.documents.Keys && t.db.versions.Keys == s.db.versions.Keys
  {
    FinishKeepsTables(c, s, t, r, newId);
  }

  lemma FinishKeepsInv(c: Config, s: State, t: State, r: nat, newId: Id)
    requires Inv(c, s) && WorkerStep(s, t) && r in s.runs && Readable(s, s.runs[r].record)
    requires s.runs[r].outcome.Ok? ==> s.runs[r].stored == 2
    requires FinishTx(c, s, r, newId, t.now).Committed? && t.db == FinishTx(c, s, r, newId, t.now).db
    requires forall q :: q in t.runs ==> q in s.runs && t.runs[q] == s.runs[q]
    requires t.fetches == s.fetches && t.fetcher == s.fetcher
    requires var i := s.runs[r].record;
             t.extractor == s.extractor
             || (i in s.extractor.inflight && t.extractor == Consumption.Return(s.extractor, i))
    ensures Kept(c, s, t) && Inv(c, t) && MovesForward(View(s.db), View(t.db))
  {
    FinishKeepsTablesInv(c, s, t, r, newId);
    FinishKeepsRest(c, s, t, s.runs[r].record);
  }

  lemma FinishFetchKeepsInv(c: Config, s: State, now: Time, h: HandlerStep, t: State)
    requires Inv(c, s) && s.now < now && h.FinishFetch?
    requires HandlerEnabled(c, s, now, h) && t == HandlerNext(c, s, now, h)
    ensures Kept(c, s, t) && Inv(c, t) && MovesForward(View(s.db), View(t.db))
  {
    FinishFetchFrame(c, s, now, h, t);
    FetchKeepsInv(c, s, t, h.r, h.newId);
  }

  lemma FinishExtractKeepsInv(c: Config, s: State, now: Time, h: HandlerStep, t: State)
    requires Inv(c, s) && s.now < now && h.FinishExtract?
    requires HandlerEnabled(c, s, now, h) && t == HandlerNext(c, s, now, h)
    ensures Kept(c, s, t) && Inv(c, t) && MovesForward(View(s.db), View(t.db))
  {
    FinishExtractFrame(c, s, now, h, t);
    FinishKeepsInv(c, s, t, h.r, h.newId);
  }

  lemma DropFrame(c: Config, s: State, now: Time, h: HandlerStep, t: State)
    requires (h.DropFetch? || h.DropRun?) && HandlerEnabled(c, s, now, h) && t == HandlerNext(c, s, now, h)
    ensures t.now == now && t.db == s.db && RelayOf(t) == RelayOf(s) && SameObjects(s, t) && SameLoops(s, t)
    ensures forall r :: r in t.fetches ==> r in s.fetches && t.fetches[r] == s.fetches[r]
    ensures forall r :: r in t.runs ==> r in s.runs && t.runs[r] == s.runs[r]
  {
  }

  lemma DropKeepsInv(c: Config, s: State, now: Time, h: HandlerStep, t: State)
    requires Inv(c, s) && s.now < now && (h.DropFetch? || h.DropRun?)
    requires HandlerEnabled(c, s, now, h) && t == HandlerNext(c, s, now, h)
    ensures Kept(c, s, t) && Inv(c, t)
  {
    DropFrame(c, s, now, h, t);
    RunsDropped(c, s, t);
  }

  lemma HandlerKeepsInv(c: Config, s: State, now: Time, h: HandlerStep, t: State)
    requires Inv(c, s) && s.now < now && HandlerEnabled(c, s, now, h) && t == HandlerNext(c, s, now, h)
    ensures Kept(c, s, t) && Inv(c, t)
  {
    if h.BeginFetch? {
      BeginFetchKeepsInv(c, s, now, h, t);
    } else if h.BeginExtract? {
      BeginExtractKeepsInv(c, s, now, h, t);
    } else if h.StoreNormalized? || h.StoreManifest? {
      StoreKeepsInv(c, s, now, h, t);
    } else if h.FinishFetch? {
      FinishFetchKeepsInv(c, s, now, h, t);
    } else if h.FinishExtract? {
      FinishExtractKeepsInv(c, s, now, h, t);
    } else {
      DropKeepsInv(c, s, now, h, t);
    }
  }

  lemma SameHandled(s: State, t: State)
    requires t.db == s.db && RelayOf(t) == RelayOf(s)
    ensures Lanes(t.log) == Lanes(s.log)
    ensures HandledBy(t, DocumentFetcher) == HandledBy(s, DocumentFetcher)
    ensures HandledBy(t, ContentExtractor) == HandledBy(s, ContentExtractor)
  {
    assert forall i :: Readable(t, i) <==> Readable(s, i);
    assert forall i: nat :: Readable(s, i) ==> EventAt(t, i) == EventAt(s, i);
  }

  lemma LoopKeepsFetcher(c: Config, s: State, now: Time, l: LoopStep, t: State)
    requires FetcherInv(s) && LoopEnabled(c, s, l) && t == LoopNext(c, s, now, l)
    ensures FetcherInv(t)
  {
    SameHandled(s, t);
    var lanes, handled := Lanes(s.log), HandledBy(s, DocumentFetcher);
    if l.PollFetcher? {
      Consumption.PollKeepsInv(lanes, SubmittedTopic, handled, s.fetcher, l.i);
    } else if l.CommitFetcher? {
      Consumption.CommitKeepsInv(lanes, SubmittedTopic, handled, s.fetcher, l.i);
    } else if l.RestartFetcher? {
      Consumption.RestartKeepsInv(lanes, SubmittedTopic, handled, s.fetcher);
    }
  }

  lemma LoopKeepsExtractor(c: Config, s: State, now: Time, l: LoopStep, t: State)
    requires ExtractorInv(s) && c.slots == 1 && LoopEnabled(c, s, l) && t == LoopNext(c, s, now, l)
    ensures ExtractorInv(t)
  {
    SameHandled(s, t);
    var lanes, handled := Lanes(s.log), HandledBy(s, ContentExtractor);
    if l.PollExtractor? {
      Consumption.PollKeepsInv(lanes, FetchedTopic, handled, s.extractor, l.i);
    } else if l.CommitExtractor? {
      Consumption.CommitKeepsInv(lanes, FetchedTopic, handled, s.extractor, l.i);
    } else if l.RestartExtractor? {
      Consumption.RestartKeepsInv(lanes, FetchedTopic, handled, s.extractor);
    }
  }

  lemma LoopKeepsOffsets(c: Config, s: State, now: Time, l: LoopStep, t: State)
    requires OffsetsInv(c, s) && LoopEnabled(c, s, l) && t == LoopNext(c, s, now, l)
    ensures OffsetsInv(c, t)
  {
    LoopKeepsFetcher(c, s, now, l, t);
    if c.slots == 1 {
      LoopKeepsExtractor(c, s, now, l, t);
    }
  }

  lemma LoopKeepsInv(c: Config, s: State, now: Time, l: LoopStep, t: State)
    requires Inv(c, s) && s.now < now && LoopEnabled(c, s, l) && t == LoopNext(c, s, now, l)
    ensures Kept(c, s, t) && Inv(c, t)
  {
    LoopKeepsOffsets(c, s, now, l, t);
    LoopStepKeepsInv(c, s, t);
  }

  lemma TickKeepsInv(c: Config, s: State, t: State)
    requires Inv(c, s) && s.now < t.now && t == s.(now := t.now)
    ensures Kept(c, s, t) && Inv(c, t)
  {
    RunsDropped(c, s, t);
  }

  lemma StepKeepsInv(c: Config, s: State, now: Time, a: Step, t: State)
    requires Inv(c, s) && s.now < now && Enabled(c, s, now, a) && t == Next(c, s, now, a)
    ensures Kept(c, s, t) && Inv(c, t)
  {
    match a
    case Requesting(q) => RequestKeepsInv(c, s, now, q, t);
    case Relaying(b) => RelayingKeepsInv(c, s, t, b);
    case Handling(h) => HandlerKeepsInv(c, s, now, h, t);
    case Looping(l) => LoopKeepsInv(c, s, now, l, t);
    case Tick => TickKeepsInv(c, s, t);
  }
}
