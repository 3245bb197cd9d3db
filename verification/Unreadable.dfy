/** What becomes of a document whose file name breaks its URI: nothing. It stays submitted, and its partition of the
    submitted topic is never committed past it. */
module Unreadable {
  import opened Domain
  import opened Ledger
  import opened Provenance
  import opened SourceKeys
  import opened Pipeline
  import opened PipelineInvariant
  import opened PipelineSteps
  import opened Guarantees
  import opened Reachability
  import opened Ingestion
  import opened Samples
  import Consumption
  import Relay

  /** The file name in the key has a character that breaks the URI. */
  ghost predicate BreaksUri(c: Config, row: VersionRow) {
    var key := KeyIn(c.bucket, row.sourceUri);
    |key| >= PREFIX_LENGTH && exists ch :: ch in key[PREFIX_LENGTH..] && Breaking(ch)
  }

  ghost predicate IsReadable(c: Config, db: Db, d: Ref) {
    Known(View(db), d) && !BreaksUri(c, db.versions[VersionOf(View(db), d)])
  }

  ghost predicate EventReadable(c: Config, db: Db, e: Event) {
    !e.DocumentSubmitted? ==> IsReadable(c, db, Doc(e))
  }

  /** Only readable documents are being fetched, or have got beyond their submission. */
  ghost predicate ReadableInv(c: Config, s: State) {
    && (forall r :: r in s.fetches ==>
          Readable(s, s.fetches[r].record) && IsReadable(c, s.db, Doc(EventAt(s, s.fetches[r].record))))
    && (forall e :: e in Events(s.db.outbox) ==> EventReadable(c, s.db, e))
  }

  // ---- What steps keep ----

  lemma ReadableStays(c: Config, a: Db, b: Db, d: Ref)
    requires DocumentsKept(a, b) && VersionsKept(a, b) && IsReadable(c, a, d)
    ensures IsReadable(c, b, d)
  {
    DocumentStays(a, b, d);
  }

  ghost predicate FetchReadable(c: Config, s: State, run: FetchRun) {
    Readable(s, run.record) && IsReadable(c, s.db, Doc(EventAt(s, run.record)))
  }

  predicate SameFetch(s: State, r: nat, run: FetchRun) {
    r in s.fetches && run.record == s.fetches[r].record
  }

  /** It is enough to look at the handler that began and at the event that was stored. */
  lemma ReadableInvStays(c: Config, s: State, t: State)
    requires Kept(c, s, t) && ReadableInv(c, s)
    requires forall r :: r in t.fetches ==> SameFetch(s, r, t.fetches[r]) || FetchReadable(c, t, t.fetches[r])
    requires forall e :: e in Events(t.db.outbox) ==> e in Events(s.db.outbox) || EventReadable(c, t.db, e)
    ensures ReadableInv(c, t)
  {
    forall r | r in t.fetches ensures FetchReadable(c, t, t.fetches[r]) {
      if SameFetch(s, r, t.fetches[r]) {
        EventStays(c, s, t, s.fetches[r].record);
        ReadableStays(c, s.db, t.db, Doc(EventAt(s, s.fetches[r].record)));
      }
    }
    forall e | e in Events(t.db.outbox) ensures EventReadable(c, t.db, e) {
      if e in Events(s.db.outbox) && !e.DocumentSubmitted? {
        ReadableStays(c, s.db, t.db, Doc(e));
      }
    }
  }

  lemma OneEventStored(c: Config, s: State, t: State, o: Event)
    requires Kept(c, s, t) && ReadableInv(c, s) && EventReadable(c, t.db, o)
    requires Events(t.db.outbox) == Events(s.db.outbox) || Events(t.db.outbox) == Events(s.db.outbox) + [o]
    requires forall r :: r in t.fetches ==> SameFetch(s, r, t.fetches[r])
    ensures ReadableInv(c, t)
  {
    ReadableInvStays(c, s, t);
  }

  lemma NoEventStored(c: Config, s: State, t: State)
    requires Kept(c, s, t) && ReadableInv(c, s) && Events(t.db.outbox) == Events(s.db.outbox)
    requires forall r :: r in t.fetches ==> SameFetch(s, r, t.fetches[r])
    ensures ReadableInv(c, t)
  {
    ReadableInvStays(c, s, t);
  }

  // ---- Requests ----

  lemma RequestFrame(c: Config, s: State, now: Time, q: RequestStep, t: State)
    requires RequestEnabled(c, s, q) && t == RequestNext(c, s, now, q)
    ensures t.fetches == s.fetches
    ensures t.db == s.db
            || (q.CommitSubmission? && q.d in s.calls
                && CreateSubmission(s.db, SubmissionFor(c, s.calls[q.d]), now).Committed?
                && t.db == CreateSubmission(s.db, SubmissionFor(c, s.calls[q.d]), now).db)
  {
  }

  lemma RequestKeepsReadable(c: Config, s: State, now: Time, q: RequestStep, t: State)
    requires Kept(c, s, t) && ReadableInv(c, s) && StoreInv(c, s) && Lineage(View(s.db))
    requires RequestEnabled(c, s, q) && t == RequestNext(c, s, now, q)
    ensures ReadableInv(c, t)
  {
    RequestFrame(c, s, now, q, t);
    if t.db != s.db {
      var sub := SubmissionFor(c, s.calls[q.d]);
      SubmissionWellFormed(c, s, q.d);
      SubmissionFacts(s.db, sub, now);
      assert View(t.db).events == Events(t.db.outbox);
      OneEventStored(c, s, t, sub.event);
    } else {
      NoEventStored(c, s, t);
    }
  }

  // ---- Handlers ----

  lemma ReadableIfRead(c: Config, s: State, i: nat, first: nat)
    requires TablesInv(s.db) && StoreInv(c, s) && Relay.LogIsSent(RelayOf(s))
    requires Readable(s, i) && s.log[i].lane.topic == SubmittedTopic
    requires FetchInputsFor(c, s.sources, EventAt(s, i), first).Some?
    ensures IsReadable(c, s.db, Doc(EventAt(s, i)))
  {
    TopicTellsType(s, i);
    EventIsGrounded(s, i);
    var v := VersionOf(View(s.db), Doc(EventAt(s, i)));
    assert SourceStored(c, s.sources, v, s.db.versions[v]);
    ReadsOwnObject(c, s, v);
  }

  lemma BeginFrame(c: Config, s: State, now: Time, h: HandlerStep, t: State)
    requires h.BeginFetch? && HandlerEnabled(c, s, now, h) && t == HandlerNext(c, s, now, h)
    ensures t.db == s.db && Readable(s, h.i) && s.log[h.i].lane.topic == SubmittedTopic
    ensures FetchInputsFor(c, s.sources, EventAt(s, h.i), h.first).Some?
    ensures forall r :: r in t.fetches ==> SameFetch(s, r, t.fetches[r]) || t.fetches[r].record == h.i
  {
  }

  lemma FetchBegun(c: Config, s: State, t: State, i: nat)
    requires Kept(c, s, t) && ReadableInv(c, s) && t.db == s.db
    requires Readable(s, i) && IsReadable(c, s.db, Doc(EventAt(s, i)))
    requires forall r :: r in t.fetches ==> SameFetch(s, r, t.fetches[r]) || t.fetches[r].record == i
    ensures ReadableInv(c, t)
  {
    EventStays(c, s, t, i);
    ReadableInvStays(c, s, t);
  }

  lemma BeginKeepsReadable(c: Config, s: State, now: Time, h: HandlerStep, t: State)
    requires Kept(c, s, t) && ReadableInv(c, s) && TablesInv(s.db) && StoreInv(c, s) && Relay.LogIsSent(RelayOf(s))
    requires h.BeginFetch? && HandlerEnabled(c, s, now, h) && t == HandlerNext(c, s, now, h)
    ensures ReadableInv(c, t)
  {
    BeginFrame(c, s, now, h, t);
    ReadableIfRead(c, s, h.i, h.first);
    FetchBegun(c, s, t, h.i);
  }

  lemma FetchKeepsReadable(c: Config, s: State, t: State, e: Event, inputs: FetchInputs, newId: Id)
    requires Kept(c, s, t) && ReadableInv(c, s) && FetchStores(s.db, e, inputs, newId, t.db)
    requires IsReadable(c, s.db, Doc(e)) && forall r :: r in t.fetches ==> SameFetch(s, r, t.fetches[r])
    ensures ReadableInv(c, t)
  {
    if t.db == s.db {
      NoEventStored(c, s, t);
    } else {
      var v := VersionOf(View(s.db), Doc(e));
      var o := FetchOutcome(e, v.1, FetchVerdict(s.db.versions[v], inputs.inspection, inputs.error), inputs.inspection,
                            newId);
      assert View(t.db).events == View(s.db).events + [o];
      ReadableStays(c, s.db, t.db, Doc(e));
      OneEventStored(c, s, t, o);
    }
  }

  lemma FinishFetchKeepsReadable(c: Config, s: State, now: Time, h: HandlerStep, t: State)
    requires Kept(c, s, t) && ReadableInv(c, s) && TablesInv(s.db) && RunsInv(c, s) && s.now < now && h.FinishFetch?
    requires HandlerEnabled(c, s, now, h) && t == HandlerNext(c, s, now, h)
    ensures ReadableInv(c, t)
  {
    FinishFetchFrame(c, s, now, h, t);
    FetchTxKeepsTables(c, s, h.r, h.newId, now, t.db);
    FetchKeepsReadable(c, s, t, EventAt(s, s.fetches[h.r].record), s.fetches[h.r].inputs, h.newId);
  }

  lemma ExtractKeepsReadable(c: Config, s: State, t: State, e: Event, outcome: Result<ExtractionStatus, ExtractError>,
                             normalizedUri: string, manifestUri: string, newId: Id)
    requires Kept(c, s, t) && ReadableInv(c, s) && e in Events(s.db.outbox) && t.fetches == s.fetches
    requires ExtractStores(s.db, e, outcome, normalizedUri, manifestUri, newId, t.db)
    ensures ReadableInv(c, t)
  {
    if t.db == s.db {
      NoEventStored(c, s, t);
    } else {
      var o := ExtractOutcome(e, outcome, normalizedUri, manifestUri, newId);
      assert View(t.db).events == View(s.db).events + [o];
      ReadableStays(c, s.db, t.db, Doc(e));
      OneEventStored(c, s, t, o);
    }
  }

  lemma FinishExtractKeepsReadable(c: Config, s: State, now: Time, h: HandlerStep, t: State)
    requires Kept(c, s, t) && ReadableInv(c, s) && TablesInv(s.db) && RunsInv(c, s) && s.now < now && h.FinishExtract?
    requires HandlerEnabled(c, s, now, h) && t == HandlerNext(c, s, now, h)
    ensures ReadableInv(c, t)
  {
    FinishExtractFrame(c, s, now, h, t);
    FinishTxKeepsTables(c, s, h.r, h.newId, now, t.db);
    var e := EventAt(s, s.runs[h.r].record);
    EventIsGrounded(s, s.runs[h.r].record);
    ExtractKeepsReadable(c, s, t, e, Report(s.runs[h.r].outcome), NormalizedUriFor(c, e), ManifestUriFor(c, e),
                         h.newId);
  }

  lemma OtherHandlerFrame(c: Config, s: State, now: Time, h: HandlerStep, t: State)
    requires !h.BeginFetch? && !h.FinishFetch? && !h.FinishExtract?
    requires HandlerEnabled(c, s, now, h) && t == HandlerNext(c, s, now, h)
    ensures t.db == s.db && forall r :: r in t.fetches ==> SameFetch(s, r, t.fetches[r])
  {
  }

  lemma HandlerKeepsReadable(c: Config, s: State, now: Time, h: HandlerStep, t: State)
    requires Kept(c, s, t) && ReadableInv(c, s) && Inv(c, s) && s.now < now
    requires HandlerEnabled(c, s, now, h) && t == HandlerNext(c, s, now, h)
    ensures ReadableInv(c, t)
  {
    if h.BeginFetch? {
      BeginKeepsReadable(c, s, now, h, t);
    } else if h.FinishFetch? {
      FinishFetchKeepsReadable(c, s, now, h, t);
    } else if h.FinishExtract? {
      FinishExtractKeepsReadable(c, s, now, h, t);
    } else {
      OtherHandlerFrame(c, s, now, h, t);
      NoEventStored(c, s, t);
    }
  }

  // ---- The other steps ----

  lemma RelayFrame(s: State, now: Time, b: Relay.Step)
    requires !b.Insert? && Relay.Enabled(RelayOf(s), now, b)
    ensures var t := WithRelay(s.(now := now), Relay.Next(RelayOf(s), now, b));
            Events(t.db.outbox) == Events(s.db.outbox) && t.fetches == s.fetches
  {
    RelayKeepsRows(RelayOf(s), now, b);
  }

  lemma LoopFrame(c: Config, s: State, now: Time, l: LoopStep)
    requires LoopEnabled(c, s, l)
    ensures var t := LoopNext(c, s, now, l);
            t.db == s.db && forall r :: r in t.fetches ==> SameFetch(s, r, t.fetches[r])
  {
  }

  lemma OtherKeepsReadable(c: Config, s: State, now: Time, a: Step, t: State)
    requires Kept(c, s, t) && ReadableInv(c, s) && !a.Requesting? && !a.Handling?
    requires Enabled(c, s, now, a) && t == Next(c, s, now, a)
    ensures ReadableInv(c, t)
  {
    match a {
      case Relaying(b) => RelayFrame(s, now, b);
      case Looping(l) => LoopFrame(c, s, now, l);
      case Tick =>
    }
    NoEventStored(c, s, t);
  }

  lemma StepKeepsReadable(c: Config, s: State, now: Time, a: Step, t: State)
    requires Inv(c, s) && ReadableInv(c, s) && s.now < now && Enabled(c, s, now, a) && t == Next(c, s, now, a)
    ensures ReadableInv(c, t)
  {
    StepKeepsInv(c, s, now, a, t);
    match a
    case Requesting(q) => RequestKeepsReadable(c, s, now, q, t);
    case Handling(h) => HandlerKeepsReadable(c, s, now, h, t);
    case _ => OtherKeepsReadable(c, s, now, a, t);
  }

  lemma NextKeepsReadable(c: Config, run: seq<State>, steps: seq<Step>, k: nat)
    requires IsRun(c, run, steps) && k < |steps| && ReadableInv(c, run[k])
    ensures ReadableInv(c, run[k + 1])
  {
    ReachableInv(c, run, steps, k);
    assert StepAt(c, run, steps, k);
    StepKeepsReadable(c, run[k], run[k + 1].now, steps[k], run[k + 1]);
  }

  lemma {:induction false} ReadableInRuns(c: Config, run: seq<State>, steps: seq<Step>, n: nat)
    requires IsRun(c, run, steps) && n <= |steps|
    ensures ReadableInv(c, run[n])
  {
    if n > 0 {
      ReadableInRuns(c, run, steps, n - 1);
      NextKeepsReadable(c, run, steps, n - 1);
    }
  }

  // ---- What follows ----

  /** The key of a root event is recorded only together with a fetch outcome of its document. */
  lemma ProcessedRootHasOutcome(f: Facts, i: nat) returns (k: nat)
    requires Lineage(f) && i < |f.events| && f.events[i].DocumentSubmitted? && FetchKey(f.events[i]) in f.processed
    ensures Has(f, Doc(f.events[i]), k) && IsFetchOutcome(f.events[k])
  {
    var e :| 0 <= e < |f.events| && EffectKey(f.events[e]) == Some(FetchKey(f.events[i]));
    assert HasParent(f.events, f.events[e]);
    var j: nat :| Parented(f.events, f.events[e], j);
    SameEvent(f, i, j);
    k := e;
  }

  /** In no state does the outbox hold more of such a document than its submission. */
  lemma OnlySubmission(c: Config, run: seq<State>, steps: seq<Step>, n: nat, d: Ref)
    requires IsRun(c, run, steps) && n <= |steps| && d in run[n].db.documents
    requires Known(View(run[n].db), d) && BreaksUri(c, run[n].db.versions[VersionOf(View(run[n].db), d)])
    ensures forall i: nat :: Has(View(run[n].db), d, i) ==> View(run[n].db).events[i].DocumentSubmitted?
  {
    ReadableInRuns(c, run, steps, n);
    var events := Events(run[n].db.outbox);
    forall i: nat | Has(View(run[n].db), d, i) ensures events[i].DocumentSubmitted? {
      assert events[i] in events;
      assert EventReadable(c, run[n].db, events[i]);
    }
  }

  lemma KnownInRuns(c: Config, run: seq<State>, steps: seq<Step>, n: nat, d: Ref)
    requires IsRun(c, run, steps) && n <= |steps| && d in run[n].db.documents
    ensures Known(View(run[n].db), d)
  {
    TablesAreSound(c, run, steps, n);
  }

  /** In every state of every run, a document whose file name breaks its URI is still `submitted`, has no event but its
      submission, and no commit of the fetcher covers its record. */
  lemma StaysSubmitted(c: Config, run: seq<State>, steps: seq<Step>, n: nat, d: Ref)
    requires IsRun(c, run, steps) && n <= |steps| && d in run[n].db.documents
    ensures Known(View(run[n].db), d)
    ensures BreaksUri(c, run[n].db.versions[VersionOf(View(run[n].db), d)]) ==>
              && run[n].db.documents[d].status.StatusSubmitted?
              && (forall i: nat :: Has(View(run[n].db), d, i) ==> View(run[n].db).events[i].DocumentSubmitted?)
              && (forall i: nat :: Readable(run[n], i) && run[n].log[i].lane.topic == SubmittedTopic
                                   && Doc(EventAt(run[n], i)) == d
                                   ==> Consumption.At(run[n].fetcher.committed, run[n].log[i].lane.partition) <= i)
  {
    KnownInRuns(c, run, steps, n, d);
    if BreaksUri(c, run[n].db.versions[VersionOf(View(run[n].db), d)]) {
      OnlySubmission(c, run, steps, n, d);
      TablesAreSound(c, run, steps, n);
      StatusIsFunctionOfEvents(View(run[n].db), d);
      forall i: nat | Readable(run[n], i) && run[n].log[i].lane.topic == SubmittedTopic && Doc(EventAt(run[n], i)) == d
        ensures Consumption.At(run[n].fetcher.committed, run[n].log[i].lane.partition) <= i
      {
        NotCovered(c, run, steps, n, d, i);
      }
    }
  }

  lemma NotCovered(c: Config, run: seq<State>, steps: seq<Step>, n: nat, d: Ref, i: nat)
    requires IsRun(c, run, steps) && n <= |steps|
    requires Readable(run[n], i) && run[n].log[i].lane.topic == SubmittedTopic && Doc(EventAt(run[n], i)) == d
    requires forall k: nat :: Has(View(run[n].db), d, k) ==> View(run[n].db).events[k].DocumentSubmitted?
    ensures Consumption.At(run[n].fetcher.committed, run[n].log[i].lane.partition) <= i
  {
    if i < Consumption.At(run[n].fetcher.committed, run[n].log[i].lane.partition) {
      FetcherOffsetsAreSafe(c, run, steps, n, i);
      SubmittedRecordsAreKnown(c, run, steps, n, i);
      TablesAreSound(c, run, steps, n);
      var k := ProcessedRootHasOutcome(View(run[n].db), RowOf(run[n], i));
    }
  }

  // ---- There are such documents ----

  function BrokenCall(content: Bytes): Call {
    SampleCall('1', content).(filename := "?")
  }

  lemma BrokenKey(c: Config, content: Bytes)
    ensures BreaksUri(c, NewVersion(SubmissionFor(c, BrokenCall(content))))
  {
    var call := BrokenCall(content);
    KeyInUri(c.bucket, KeyFor(call));
    PrefixIsPlain(call.tenantId, call.documentId);
    var key := KeyFor(call);
    assert key == DocumentPrefix(call.tenantId, call.documentId) + "?";
    assert key[PREFIX_LENGTH..] == "?";
    assert '?' in key[PREFIX_LENGTH..] && Breaking('?');
  }

  lemma BrokenCanSubmit(c: Config, content: Bytes)
    requires |content| <= c.apiMax
    ensures CanSubmit(c, OneTenant(), BrokenCall(content))
  {
    SampleCanSubmit(c, OneTenant(), '1', content);
  }

  /** The document is there, with its record in the log. */
  ghost predicate IsBroken(c: Config, d: Ref, t: State) {
    && Known(View(t.db), d) && BreaksUri(c, t.db.versions[VersionOf(View(t.db), d)])
    && Readable(t, 0) && t.log[0].lane.topic == SubmittedTopic && Doc(EventAt(t, 0)) == d
  }

  lemma SubmittedIsBroken(c: Config, content: Bytes, t: State)
    requires IsSubmitted(c, OneTenant(), BrokenCall(content), t)
    ensures IsBroken(c, DocumentOf(BrokenCall(content)), t)
  {
    BrokenKey(c, content);
    assert VersionOf(View(t.db), DocumentOf(BrokenCall(content))) == VersionKey(BrokenCall(content));
  }

  /** The API accepts such a name, and its record gets into the log. */
  lemma BrokenNameReaches(c: Config, may: Converter, content: Bytes) returns (t: State)
    requires IsBucket(c.bucket) && c.slots >= 1 && |content| <= c.apiMax
    ensures Reaches(c, may, OneTenant(), t) && IsBroken(c, DocumentOf(BrokenCall(content)), t)
  {
    SampleStarts(c, may, {Uuid('1')});
    BrokenCanSubmit(c, content);
    t := SubmitsAndPublishes(c, may, OneTenant(), OneTenant(), BrokenCall(content));
    SubmittedIsBroken(c, content, t);
  }
}
