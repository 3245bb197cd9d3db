/** Where every stored outcome comes from: a handler that read the source object in an earlier step of the run decided
    it. So an outcome says what the bytes of its version are, and what the converter made of them. */
module Origins {
  import opened Domain
  import opened Ledger
  import opened Provenance
  import opened Pipeline
  import opened PipelineInvariant
  import opened PipelineSteps
  import opened Guarantees
  import opened Reachability
  import Relay
  import Streams

  /** Step `k` begins to fetch event `e`, and what it reads leads to `inputs`. */
  ghost predicate BeginsFetch(c: Config, run: seq<State>, steps: seq<Step>, k: nat, e: Event, inputs: FetchInputs) {
    && k < |steps| && |run| == |steps| + 1 && steps[k].Handling? && steps[k].h.BeginFetch?
    && Readable(run[k], steps[k].h.i) && run[k].log[steps[k].h.i].lane.topic == SubmittedTopic
    && EventAt(run[k], steps[k].h.i) == e
    && FetchInputsFor(c, run[k].sources, e, steps[k].h.first) == Some(inputs)
  }

  /** Step `k` begins to extract event `e`, with this outcome. */
  ghost predicate BeginsExtract(c: Config, run: seq<State>, steps: seq<Step>, k: nat, e: Event,
                                outcome: Result<Streams.ExtractionResult, ExtractError>)
  {
    && k < |steps| && |run| == |steps| + 1 && steps[k].Handling? && steps[k].h.BeginExtract?
    && Readable(run[k], steps[k].h.i) && run[k].log[steps[k].h.i].lane.topic == FetchedTopic
    && EventAt(run[k], steps[k].h.i) == e
    && ExtractOutcomeFor(c, run[k].sources, e, steps[k].h.conversion) == Some(outcome)
  }

  ghost predicate FetchBegan(c: Config, run: seq<State>, steps: seq<Step>, n: nat, e: Event, inputs: FetchInputs) {
    exists k: nat :: k < n && BeginsFetch(c, run, steps, k, e, inputs)
  }

  ghost predicate ExtractBegan(c: Config, run: seq<State>, steps: seq<Step>, n: nat, e: Event,
                               outcome: Result<Streams.ExtractionResult, ExtractError>)
  {
    exists k: nat :: k < n && BeginsExtract(c, run, steps, k, e, outcome)
  }

  /** Only an inspection that found a PDF leads to DocumentFetched, or leaves the rejection to the declared type. */
  predicate Decides(inputs: FetchInputs, o: Event) {
    && (o.DocumentFetched? ==> inputs.inspection.Some?)
    && (o.DocumentFetchRejected? ==>
          if o.fetchError == DeclaredMimeMismatch then inputs.inspection.Some? else inputs.error == Some(o.fetchError))
  }

  predicate Reports(outcome: Result<Streams.ExtractionResult, ExtractError>, o: Event) {
    && (o.ContentExtracted? ==> outcome.Ok? && outcome.value.status == o.extractionStatus)
    && (o.ContentExtractionRejected? ==> outcome == Err(o.extractError))
  }

  ghost predicate FetchOrigin(c: Config, run: seq<State>, steps: seq<Step>, n: nat, o: Event) {
    exists e, inputs :: FetchBegan(c, run, steps, n, e, inputs) && Doc(e) == Doc(o) && Decides(inputs, o)
  }

  ghost predicate ExtractOrigin(c: Config, run: seq<State>, steps: seq<Step>, n: nat, o: Event)
    requires HasVersion(o)
  {
    exists e, outcome :: ExtractBegan(c, run, steps, n, e, outcome)
                         && e.DocumentFetched? && VersionRef(e) == VersionRef(o) && Reports(outcome, o)
  }

  ghost predicate EventOrigin(c: Config, run: seq<State>, steps: seq<Step>, n: nat, o: Event) {
    && (IsFetchOutcome(o) ==> FetchOrigin(c, run, steps, n, o))
    && (IsExtractOutcome(o) ==> ExtractOrigin(c, run, steps, n, o))
  }

  ghost predicate FetchFrom(c: Config, run: seq<State>, steps: seq<Step>, n: nat, s: State, f: FetchRun) {
    Readable(s, f.record) && FetchBegan(c, run, steps, n, EventAt(s, f.record), f.inputs)
  }

  ghost predicate ExtractFrom(c: Config, run: seq<State>, steps: seq<Step>, n: nat, s: State, x: ExtractRun) {
    Readable(s, x.record) && ExtractBegan(c, run, steps, n, EventAt(s, x.record), x.outcome)
  }

  /** In state `s`, after `n` steps, every handler and every stored outcome has its origin in one of them. */
  ghost predicate OriginsInv(c: Config, run: seq<State>, steps: seq<Step>, n: nat, s: State) {
    && (forall r :: r in s.fetches ==> FetchFrom(c, run, steps, n, s, s.fetches[r]))
    && (forall r :: r in s.runs ==> ExtractFrom(c, run, steps, n, s, s.runs[r]))
    && (forall o :: o in Events(s.db.outbox) ==> EventOrigin(c, run, steps, n, o))
  }

  // ---- What steps keep ----

  lemma FetchBeganBefore(c: Config, run: seq<State>, steps: seq<Step>, n: nat, e: Event, inputs: FetchInputs)
    requires FetchBegan(c, run, steps, n, e, inputs)
    ensures FetchBegan(c, run, steps, n + 1, e, inputs)
  {
    var k: nat :| k < n && BeginsFetch(c, run, steps, k, e, inputs);
  }

  lemma ExtractBeganBefore(c: Config, run: seq<State>, steps: seq<Step>, n: nat, e: Event,
                           outcome: Result<Streams.ExtractionResult, ExtractError>)
    requires ExtractBegan(c, run, steps, n, e, outcome)
    ensures ExtractBegan(c, run, steps, n + 1, e, outcome)
  {
    var k: nat :| k < n && BeginsExtract(c, run, steps, k, e, outcome);
  }

  lemma OriginStays(c: Config, run: seq<State>, steps: seq<Step>, n: nat, o: Event)
    requires EventOrigin(c, run, steps, n, o)
    ensures EventOrigin(c, run, steps, n + 1, o)
  {
    if IsFetchOutcome(o) {
      var e, inputs :| FetchBegan(c, run, steps, n, e, inputs) && Doc(e) == Doc(o) && Decides(inputs, o);
      FetchBeganBefore(c, run, steps, n, e, inputs);
    }
    if IsExtractOutcome(o) {
      var e, outcome :| ExtractBegan(c, run, steps, n, e, outcome)
                        && e.DocumentFetched? && VersionRef(e) == VersionRef(o) && Reports(outcome, o);
      ExtractBeganBefore(c, run, steps, n, e, outcome);
    }
  }

  lemma FetchFromStays(c: Config, run: seq<State>, steps: seq<Step>, n: nat, s: State, t: State, f: FetchRun,
                       after: FetchRun)
    requires Kept(c, s, t) && FetchFrom(c, run, steps, n, s, f) && after.record == f.record && after.inputs == f.inputs
    ensures FetchFrom(c, run, steps, n + 1, t, after)
  {
    EventStays(c, s, t, f.record);
    FetchBeganBefore(c, run, steps, n, EventAt(s, f.record), f.inputs);
  }

  lemma ExtractFromStays(c: Config, run: seq<State>, steps: seq<Step>, n: nat, s: State, t: State, x: ExtractRun,
                         after: ExtractRun)
    requires Kept(c, s, t) && ExtractFrom(c, run, steps, n, s, x)
    requires after.record == x.record && after.outcome == x.outcome
    ensures ExtractFrom(c, run, steps, n + 1, t, after)
  {
    EventStays(c, s, t, x.record);
    ExtractBeganBefore(c, run, steps, n, EventAt(s, x.record), x.outcome);
  }

  predicate SameFetch(s: State, r: nat, f: FetchRun) {
    r in s.fetches && f.record == s.fetches[r].record && f.inputs == s.fetches[r].inputs
  }

  predicate SameExtract(s: State, r: nat, x: ExtractRun) {
    r in s.runs && x.record == s.runs[r].record && x.outcome == s.runs[r].outcome
  }

  predicate SameHandlers(s: State, t: State) {
    && (forall r :: r in t.fetches ==> SameFetch(s, r, t.fetches[r]))
    && (forall r :: r in t.runs ==> SameExtract(s, r, t.runs[r]))
  }

  /** It is enough to look at the handler that began and at the event that was stored. */
  lemma OriginsStay(c: Config, run: seq<State>, steps: seq<Step>, n: nat, s: State, t: State)
    requires Kept(c, s, t) && OriginsInv(c, run, steps, n, s)
    requires forall r :: r in t.fetches ==> SameFetch(s, r, t.fetches[r])
                                            || FetchFrom(c, run, steps, n + 1, t, t.fetches[r])
    requires forall r :: r in t.runs ==> SameExtract(s, r, t.runs[r])
                                         || ExtractFrom(c, run, steps, n + 1, t, t.runs[r])
    requires forall o :: o in Events(t.db.outbox) ==> o in Events(s.db.outbox)
                                                      || EventOrigin(c, run, steps, n + 1, o)
    ensures OriginsInv(c, run, steps, n + 1, t)
  {
    forall r | r in t.fetches ensures FetchFrom(c, run, steps, n + 1, t, t.fetches[r]) {
      if SameFetch(s, r, t.fetches[r]) {
        FetchFromStays(c, run, steps, n, s, t, s.fetches[r], t.fetches[r]);
      }
    }
    forall r | r in t.runs ensures ExtractFrom(c, run, steps, n + 1, t, t.runs[r]) {
      if SameExtract(s, r, t.runs[r]) {
        ExtractFromStays(c, run, steps, n, s, t, s.runs[r], t.runs[r]);
      }
    }
    forall o | o in Events(t.db.outbox) ensures EventOrigin(c, run, steps, n + 1, o) {
      if o in Events(s.db.outbox) {
        OriginStays(c, run, steps, n, o);
      }
    }
  }

  lemma NothingNew(c: Config, run: seq<State>, steps: seq<Step>, n: nat, s: State, t: State)
    requires Kept(c, s, t) && OriginsInv(c, run, steps, n, s) && SameHandlers(s, t)
    requires Events(t.db.outbox) == Events(s.db.outbox)
    ensures OriginsInv(c, run, steps, n + 1, t)
  {
    OriginsStay(c, run, steps, n, s, t);
  }

  lemma OneStored(c: Config, run: seq<State>, steps: seq<Step>, n: nat, s: State, t: State, o: Event)
    requires Kept(c, s, t) && OriginsInv(c, run, steps, n, s) && SameHandlers(s, t)
    requires Events(t.db.outbox) == Events(s.db.outbox) + [o] && EventOrigin(c, run, steps, n + 1, o)
    ensures OriginsInv(c, run, steps, n + 1, t)
  {
    OriginsStay(c, run, steps, n, s, t);
  }

  // ---- Requests ----

  lemma RequestFrame(c: Config, s: State, now: Time, q: RequestStep, t: State)
    requires RequestEnabled(c, s, q) && t == RequestNext(c, s, now, q)
    ensures SameHandlers(s, t)
    ensures t.db == s.db
            || (q.CommitSubmission? && q.d in s.calls
                && CreateSubmission(s.db, SubmissionFor(c, s.calls[q.d]), now).Committed?
                && t.db == CreateSubmission(s.db, SubmissionFor(c, s.calls[q.d]), now).db)
  {
  }

  lemma RequestKeepsOrigins(c: Config, run: seq<State>, steps: seq<Step>, n: nat, s: State, now: Time, q: RequestStep,
                            t: State)
    requires Kept(c, s, t) && OriginsInv(c, run, steps, n, s) && StoreInv(c, s) && Lineage(View(s.db))
    requires RequestEnabled(c, s, q) && t == RequestNext(c, s, now, q)
    ensures OriginsInv(c, run, steps, n + 1, t)
  {
    RequestFrame(c, s, now, q, t);
    if t.db != s.db {
      var sub := SubmissionFor(c, s.calls[q.d]);
      SubmissionWellFormed(c, s, q.d);
      SubmissionFacts(s.db, sub, now);
      assert View(t.db).events == Events(t.db.outbox);
      OneStored(c, run, steps, n, s, t, sub.event);
    } else {
      NothingNew(c, run, steps, n, s, t);
    }
  }

  // ---- Handlers that begin ----

  lemma FetchBegins(c: Config, run: seq<State>, steps: seq<Step>, n: nat, s: State, now: Time, h: HandlerStep, t: State)
    requires |run| == |steps| + 1 && n < |steps| && run[n] == s && steps[n] == Handling(h) && h.BeginFetch?
    requires HandlerEnabled(c, s, now, h) && t == HandlerNext(c, s, now, h)
    ensures t.db == s.db && t.runs == s.runs
    ensures forall r :: r in t.fetches && r != h.r ==> SameFetch(s, r, t.fetches[r])
    ensures h.r in t.fetches && t.fetches[h.r].record == h.i && Readable(s, h.i)
    ensures FetchBegan(c, run, steps, n + 1, EventAt(s, h.i), t.fetches[h.r].inputs)
  {
    assert BeginsFetch(c, run, steps, n, EventAt(s, h.i), t.fetches[h.r].inputs);
  }

  lemma FetchBeginKeepsOrigins(c: Config, run: seq<State>, steps: seq<Step>, n: nat, s: State, now: Time,
                               h: HandlerStep, t: State)
    requires Kept(c, s, t) && OriginsInv(c, run, steps, n, s)
    requires |run| == |steps| + 1 && n < |steps| && run[n] == s && steps[n] == Handling(h) && h.BeginFetch?
    requires HandlerEnabled(c, s, now, h) && t == HandlerNext(c, s, now, h)
    ensures OriginsInv(c, run, steps, n + 1, t)
  {
    FetchBegins(c, run, steps, n, s, now, h, t);
    EventStays(c, s, t, h.i);
    OriginsStay(c, run, steps, n, s, t);
  }

  lemma ExtractBegins(c: Config, run: seq<State>, steps: seq<Step>, n: nat, s: State, now: Time, h: HandlerStep,
                      t: State)
    requires |run| == |steps| + 1 && n < |steps| && run[n] == s && steps[n] == Handling(h) && h.BeginExtract?
    requires HandlerEnabled(c, s, now, h) && t == HandlerNext(c, s, now, h)
    ensures t.db == s.db && t.fetches == s.fetches
    ensures forall r :: r in t.runs && r != h.r ==> SameExtract(s, r, t.runs[r])
    ensures h.r in t.runs && t.runs[h.r].record == h.i && Readable(s, h.i)
    ensures ExtractBegan(c, run, steps, n + 1, EventAt(s, h.i), t.runs[h.r].outcome)
  {
    assert BeginsExtract(c, run, steps, n, EventAt(s, h.i), t.runs[h.r].outcome);
  }

  lemma ExtractBeginKeepsOrigins(c: Config, run: seq<State>, steps: seq<Step>, n: nat, s: State, now: Time,
                                 h: HandlerStep, t: State)
    requires Kept(c, s, t) && OriginsInv(c, run, steps, n, s)
    requires |run| == |steps| + 1 && n < |steps| && run[n] == s && steps[n] == Handling(h) && h.BeginExtract?
    requires HandlerEnabled(c, s, now, h) && t == HandlerNext(c, s, now, h)
    ensures OriginsInv(c, run, steps, n + 1, t)
  {
    ExtractBegins(c, run, steps, n, s, now, h, t);
    EventStays(c, s, t, h.i);
    OriginsStay(c, run, steps, n, s, t);
  }

  // ---- Handlers that end ----

  lemma FetchDropped(s: State, t: State, r: nat)
    requires t.fetches == s.fetches - {r} && t.runs == s.runs
    ensures SameHandlers(s, t)
  {
  }

  lemma ExtractDropped(s: State, t: State, r: nat)
    requires t.runs == s.runs - {r} && t.fetches == s.fetches
    ensures SameHandlers(s, t)
  {
  }

  lemma FetchDecides(v: VersionRow, inputs: FetchInputs, e: Event, version: Id, newId: Id)
    requires e.DocumentSubmitted? && FetchArguments(inputs.inspection, inputs.error)
    requires inputs.inspection.Some? ==> inputs.inspection.value.contentSha256 == v.contentSha256
    requires inputs.error != Some(DeclaredMimeMismatch)
    ensures var verdict := FetchVerdict(v, inputs.inspection, inputs.error);
            var o := FetchOutcome(e, version, verdict, inputs.inspection, newId);
            IsFetchOutcome(o) && Doc(o) == Doc(e) && Decides(inputs, o)
  {
  }

  lemma VerdictHasOrigin(c: Config, run: seq<State>, steps: seq<Step>, n: nat, v: VersionRow, inputs: FetchInputs,
                         e: Event, version: Id, newId: Id)
    requires e.DocumentSubmitted? && FetchArguments(inputs.inspection, inputs.error)
    requires inputs.inspection.Some? ==> inputs.inspection.value.contentSha256 == v.contentSha256
    requires inputs.error != Some(DeclaredMimeMismatch) && FetchBegan(c, run, steps, n, e, inputs)
    ensures EventOrigin(c, run, steps, n + 1,
                        FetchOutcome(e, version, FetchVerdict(v, inputs.inspection, inputs.error), inputs.inspection,
                                     newId))
  {
    var o := FetchOutcome(e, version, FetchVerdict(v, inputs.inspection, inputs.error), inputs.inspection, newId);
    FetchDecides(v, inputs, e, version, newId);
    FetchBeganBefore(c, run, steps, n, e, inputs);
    assert FetchOrigin(c, run, steps, n + 1, o);
  }

  lemma FetchEndKeepsOrigins(c: Config, run: seq<State>, steps: seq<Step>, n: nat, s: State, t: State, e: Event,
                             inputs: FetchInputs, newId: Id)
    requires Kept(c, s, t) && OriginsInv(c, run, steps, n, s) && SameHandlers(s, t)
    requires FetchBegan(c, run, steps, n, e, inputs) && FetchStores(s.db, e, inputs, newId, t.db)
    requires Known(View(s.db), Doc(e)) && inputs.error != Some(DeclaredMimeMismatch)
    requires inputs.inspection.Some? ==>
               inputs.inspection.value.contentSha256 == s.db.versions[VersionOf(View(s.db), Doc(e))].contentSha256
    ensures OriginsInv(c, run, steps, n + 1, t)
  {
    if t.db == s.db {
      NothingNew(c, run, steps, n, s, t);
    } else {
      var v := VersionOf(View(s.db), Doc(e));
      var o := FetchOutcome(e, v.1, FetchVerdict(s.db.versions[v], inputs.inspection, inputs.error),
                            inputs.inspection, newId);
      assert View(t.db).events == View(s.db).events + [o];
      VerdictHasOrigin(c, run, steps, n, s.db.versions[v], inputs, e, v.1, newId);
      OneStored(c, run, steps, n, s, t, o);
    }
  }

  lemma FetchHandlerEnds(c: Config, run: seq<State>, steps: seq<Step>, n: nat, s: State, t: State, r: nat, newId: Id)
    requires Kept(c, s, t) && OriginsInv(c, run, steps, n, s) && r in s.fetches && FetchRunOk(c, s, s.fetches[r])
    requires t.fetches == s.fetches - {r} && t.runs == s.runs
    requires FetchStores(s.db, EventAt(s, s.fetches[r].record), s.fetches[r].inputs, newId, t.db)
    ensures OriginsInv(c, run, steps, n + 1, t)
  {
    assert FetchFrom(c, run, steps, n, s, s.fetches[r]);
    FetchDropped(s, t, r);
    FetchEndKeepsOrigins(c, run, steps, n, s, t, EventAt(s, s.fetches[r].record), s.fetches[r].inputs, newId);
  }

  lemma FetchEnds(c: Config, s: State, now: Time, h: HandlerStep, t: State)
    requires TablesInv(s.db) && RunsInv(c, s)
    requires s.now < now && h.FinishFetch? && HandlerEnabled(c, s, now, h) && t == HandlerNext(c, s, now, h)
    ensures t.fetches == s.fetches - {h.r} && t.runs == s.runs
    ensures h.r in s.fetches && FetchRunOk(c, s, s.fetches[h.r])
    ensures FetchStores(s.db, EventAt(s, s.fetches[h.r].record), s.fetches[h.r].inputs, h.newId, t.db)
  {
    FinishFetchFrame(c, s, now, h, t);
    FetchTxKeepsTables(c, s, h.r, h.newId, now, t.db);
  }

  lemma FinishFetchKeepsOrigins(c: Config, run: seq<State>, steps: seq<Step>, n: nat, s: State, now: Time,
                                h: HandlerStep, t: State)
    requires Kept(c, s, t) && OriginsInv(c, run, steps, n, s) && TablesInv(s.db) && RunsInv(c, s)
    requires s.now < now && h.FinishFetch? && HandlerEnabled(c, s, now, h) && t == HandlerNext(c, s, now, h)
    ensures OriginsInv(c, run, steps, n + 1, t)
  {
    FetchEnds(c, s, now, h, t);
    FetchHandlerEnds(c, run, steps, n, s, t, h.r, h.newId);
  }

  lemma OutcomeHasOrigin(c: Config, run: seq<State>, steps: seq<Step>, n: nat, e: Event,
                         outcome: Result<Streams.ExtractionResult, ExtractError>, normalizedUri: string,
                         manifestUri: string, newId: Id)
    requires e.DocumentFetched? && ExtractBegan(c, run, steps, n, e, outcome)
    ensures EventOrigin(c, run, steps, n + 1, ExtractOutcome(e, Report(outcome), normalizedUri, manifestUri, newId))
  {
    var o := ExtractOutcome(e, Report(outcome), normalizedUri, manifestUri, newId);
    ExtractBeganBefore(c, run, steps, n, e, outcome);
    assert Reports(outcome, o) && VersionRef(e) == VersionRef(o);
    assert ExtractOrigin(c, run, steps, n + 1, o);
  }

  lemma ExtractEndKeepsOrigins(c: Config, run: seq<State>, steps: seq<Step>, n: nat, s: State, t: State, e: Event,
                               outcome: Result<Streams.ExtractionResult, ExtractError>, normalizedUri: string,
                               manifestUri: string, newId: Id)
    requires Kept(c, s, t) && OriginsInv(c, run, steps, n, s) && SameHandlers(s, t)
    requires ExtractBegan(c, run, steps, n, e, outcome)
    requires ExtractStores(s.db, e, Report(outcome), normalizedUri, manifestUri, newId, t.db)
    ensures OriginsInv(c, run, steps, n + 1, t)
  {
    if t.db == s.db {
      NothingNew(c, run, steps, n, s, t);
    } else {
      var o := ExtractOutcome(e, Report(outcome), normalizedUri, manifestUri, newId);
      assert View(t.db).events == View(s.db).events + [o];
      OutcomeHasOrigin(c, run, steps, n, e, outcome, normalizedUri, manifestUri, newId);
      OneStored(c, run, steps, n, s, t, o);
    }
  }

  lemma ExtractHandlerEnds(c: Config, run: seq<State>, steps: seq<Step>, n: nat, s: State, t: State, r: nat, e: Event,
                           newId: Id)
    requires Kept(c, s, t) && OriginsInv(c, run, steps, n, s) && r in s.runs
    requires t.runs == s.runs - {r} && t.fetches == s.fetches
    requires Readable(s, s.runs[r].record) && e == EventAt(s, s.runs[r].record) && e.DocumentFetched?
    requires ExtractStores(s.db, e, Report(s.runs[r].outcome), NormalizedUriFor(c, e), ManifestUriFor(c, e), newId,
                           t.db)
    ensures OriginsInv(c, run, steps, n + 1, t)
  {
    assert ExtractFrom(c, run, steps, n, s, s.runs[r]);
    ExtractDropped(s, t, r);
    ExtractEndKeepsOrigins(c, run, steps, n, s, t, e, s.runs[r].outcome, NormalizedUriFor(c, e), ManifestUriFor(c, e),
                           newId);
  }

  lemma ExtractEnds(c: Config, s: State, now: Time, h: HandlerStep, t: State)
    requires TablesInv(s.db) && RunsInv(c, s)
    requires s.now < now && h.FinishExtract? && HandlerEnabled(c, s, now, h) && t == HandlerNext(c, s, now, h)
    ensures t.runs == s.runs - {h.r} && t.fetches == s.fetches
    ensures h.r in s.runs && Readable(s, s.runs[h.r].record)
    ensures EventAt(s, s.runs[h.r].record).DocumentFetched?
    ensures var e := EventAt(s, s.runs[h.r].record);
            ExtractStores(s.db, e, Report(s.runs[h.r].outcome), NormalizedUriFor(c, e), ManifestUriFor(c, e), h.newId,
                          t.db)
  {
    FinishExtractFrame(c, s, now, h, t);
    FinishTxKeepsTables(c, s, h.r, h.newId, now, t.db);
    assert ExtractRunOk(c, s, s.runs[h.r]);
  }

  lemma FinishExtractKeepsOrigins(c: Config, run: seq<State>, steps: seq<Step>, n: nat, s: State, now: Time,
                                  h: HandlerStep, t: State)
    requires Kept(c, s, t) && OriginsInv(c, run, steps, n, s) && TablesInv(s.db) && RunsInv(c, s)
    requires s.now < now && h.FinishExtract? && HandlerEnabled(c, s, now, h) && t == HandlerNext(c, s, now, h)
    ensures OriginsInv(c, run, steps, n + 1, t)
  {
    ExtractEnds(c, s, now, h, t);
    ExtractHandlerEnds(c, run, steps, n, s, t, h.r, EventAt(s, s.runs[h.r].record), h.newId);
  }

  lemma OtherHandlerFrame(c: Config, s: State, now: Time, h: HandlerStep, t: State)
    requires h.StoreNormalized? || h.StoreManifest? || h.DropFetch? || h.DropRun?
    requires HandlerEnabled(c, s, now, h) && t == HandlerNext(c, s, now, h)
    ensures t.db == s.db && SameHandlers(s, t)
  {
  }

  lemma HandlerKeepsOrigins(c: Config, run: seq<State>, steps: seq<Step>, n: nat, s: State, now: Time, h: HandlerStep,
                            t: State)
    requires Kept(c, s, t) && OriginsInv(c, run, steps, n, s) && Inv(c, s) && s.now < now
    requires |run| == |steps| + 1 && n < |steps| && run[n] == s && steps[n] == Handling(h)
    requires HandlerEnabled(c, s, now, h) && t == HandlerNext(c, s, now, h)
    ensures OriginsInv(c, run, steps, n + 1, t)
  {
    if h.BeginFetch? {
      FetchBeginKeepsOrigins(c, run, steps, n, s, now, h, t);
    } else if h.BeginExtract? {
      ExtractBeginKeepsOrigins(c, run, steps, n, s, now, h, t);
    } else if h.FinishFetch? {
      FinishFetchKeepsOrigins(c, run, steps, n, s, now, h, t);
    } else if h.FinishExtract? {
      FinishExtractKeepsOrigins(c, run, steps, n, s, now, h, t);
    } else {
      OtherHandlerFrame(c, s, now, h, t);
      NothingNew(c, run, steps, n, s, t);
    }
  }

  // ---- The other steps ----

  lemma RelayFrame(s: State, now: Time, b: Relay.Step)
    requires !b.Insert? && Relay.Enabled(RelayOf(s), now, b)
    ensures var t := WithRelay(s.(now := now), Relay.Next(RelayOf(s), now, b));
            Events(t.db.outbox) == Events(s.db.outbox) && SameHandlers(s, t)
  {
    RelayKeepsRows(RelayOf(s), now, b);
  }

  lemma LoopFrame(c: Config, s: State, now: Time, l: LoopStep)
    requires LoopEnabled(c, s, l)
    ensures LoopNext(c, s, now, l).db == s.db && SameHandlers(s, LoopNext(c, s, now, l))
  {
  }

  lemma OtherKeepsOrigins(c: Config, run: seq<State>, steps: seq<Step>, n: nat, s: State, now: Time, a: Step, t: State)
    requires Kept(c, s, t) && OriginsInv(c, run, steps, n, s) && !a.Requesting? && !a.Handling?
    requires Enabled(c, s, now, a) && t == Next(c, s, now, a)
    ensures OriginsInv(c, run, steps, n + 1, t)
  {
    match a {
      case Relaying(b) => RelayFrame(s, now, b);
      case Looping(l) => LoopFrame(c, s, now, l);
      case Tick =>
    }
    NothingNew(c, run, steps, n, s, t);
  }

  lemma StepKeepsOrigins(c: Config, run: seq<State>, steps: seq<Step>, n: nat, s: State, now: Time, a: Step, t: State)
    requires Inv(c, s) && OriginsInv(c, run, steps, n, s) && s.now < now
    requires |run| == |steps| + 1 && n < |steps| && run[n] == s && steps[n] == a
    requires Enabled(c, s, now, a) && t == Next(c, s, now, a)
    ensures OriginsInv(c, run, steps, n + 1, t)
  {
    StepKeepsInv(c, s, now, a, t);
    match a
    case Requesting(q) => RequestKeepsOrigins(c, run, steps, n, s, now, q, t);
    case Handling(h) => HandlerKeepsOrigins(c, run, steps, n, s, now, h, t);
    case _ => OtherKeepsOrigins(c, run, steps, n, s, now, a, t);
  }

  lemma NextKeepsOrigins(c: Config, run: seq<State>, steps: seq<Step>, n: nat)
    requires IsRun(c, run, steps) && n < |steps| && OriginsInv(c, run, steps, n, run[n])
    ensures OriginsInv(c, run, steps, n + 1, run[n + 1])
  {
    ReachableInv(c, run, steps, n);
    assert StepAt(c, run, steps, n);
    StepKeepsOrigins(c, run, steps, n, run[n], run[n + 1].now, steps[n], run[n + 1]);
  }

  lemma {:induction false} OriginsInRuns(c: Config, run: seq<State>, steps: seq<Step>, n: nat)
    requires IsRun(c, run, steps) && n <= |steps|
    ensures OriginsInv(c, run, steps, n, run[n])
  {
    if n > 0 {
      OriginsInRuns(c, run, steps, n - 1);
      NextKeepsOrigins(c, run, steps, n - 1);
    }
  }

  // ---- What the fetcher read ----

  /** The version of a submitted document and its bytes are the same in every later state. */
  lemma VersionIsSettled(c: Config, run: seq<State>, steps: seq<Step>, k: nat, n: nat, d: Ref)
    requires IsRun(c, run, steps) && k <= n <= |steps| && Known(View(run[k].db), d)
    requires OneVersionEach(View(run[k].db)) && OneVersionEach(View(run[n].db))
    ensures Known(View(run[n].db), d) && VersionOf(View(run[n].db), d) == VersionOf(View(run[k].db), d)
    ensures var v := VersionOf(View(run[k].db), d);
            SameSource(run[k].db.versions[v], run[n].db.versions[v])
            && BytesOf(c, run[n].sources, run[n].db.versions[v]) == BytesOf(c, run[k].sources, run[k].db.versions[v])
  {
    var v := VersionOf(View(run[k].db), d);
    SourceIsImmutable(c, run, steps, k, n, v);
    assert v in View(run[k].db).versions && v in View(run[n].db).versions;
    assert run[k].db.versions[v].documentId == d.1;
  }

  /** What a fetch that began in state `s` reads: the bytes of the version. */
  lemma FetchReads(c: Config, s: State, i: nat, first: nat, inputs: FetchInputs)
    requires TablesInv(s.db) && StoreInv(c, s) && Relay.LogIsSent(RelayOf(s))
    requires Readable(s, i) && s.log[i].lane.topic == SubmittedTopic
    requires FetchInputsFor(c, s.sources, EventAt(s, i), first) == Some(inputs)
    ensures var e := EventAt(s, i);
            && e.DocumentSubmitted? && Known(View(s.db), Doc(e))
            && var content := BytesOf(c, s.sources, s.db.versions[VersionOf(View(s.db), Doc(e))]);
               && ReadSource(c, s.sources, e.payloadUri) == Some(content)
               && Streams.FirstChunk(content, first, c.fetcherMax) && SaysOf(c, content, first, Some(inputs))
  {
    TopicTellsType(s, i);
    EventIsGrounded(s, i);
    var v := VersionOf(View(s.db), Doc(EventAt(s, i)));
    assert SourceStored(c, s.sources, v, s.db.versions[v]);
    ReadsOwnObject(c, s, v);
    FetchInputsIff(c, s.sources, EventAt(s, i), first);
  }

  /** The bytes that the inspector gets: those of the version, as they are in every later state. */
  lemma FetchRead(c: Config, run: seq<State>, steps: seq<Step>, k: nat, n: nat, e: Event, inputs: FetchInputs)
    requires IsRun(c, run, steps) && k < n <= |steps| && BeginsFetch(c, run, steps, k, e, inputs)
    ensures e.DocumentSubmitted? && Known(View(run[n].db), Doc(e))
    ensures var content := BytesOf(c, run[n].sources, run[n].db.versions[VersionOf(View(run[n].db), Doc(e))]);
            && ReadSource(c, run[k].sources, e.payloadUri) == Some(content)
            && SaysOf(c, content, steps[k].h.first, Some(inputs))
  {
    ReachableInv(c, run, steps, k);
    ReachableInv(c, run, steps, n);
    FetchReads(c, run[k], steps[k].h.i, steps[k].h.first, inputs);
    VersionIsSettled(c, run, steps, k, n, Doc(e));
  }

  /** If step `a` begins a fetch, its first read gets five bytes, or the whole object. */
  ghost predicate ReadsInFull(c: Config, s: State, a: Step) {
    a.Handling? && a.h.BeginFetch? && Readable(s, a.h.i) && EventAt(s, a.h.i).DocumentSubmitted? ==>
      var content := ReadSource(c, s.sources, EventAt(s, a.h.i).payloadUri);
      content.Some? ==> a.h.first >= 5 || a.h.first == |content.value|
  }

  ghost predicate AlwaysReadsInFull(c: Config, run: seq<State>, steps: seq<Step>)
    requires |run| == |steps| + 1
  {
    forall k :: 0 <= k < |steps| ==> ReadsInFull(c, run[k], steps[k])
  }

  /** What the fetcher has to make of a version with these bytes. */
  predicate IsVerdictOn(c: Config, row: VersionRow, content: Bytes, o: Event) {
    var signed := |content| >= 5 && content[..5] == [0x25, 0x50, 0x44, 0x46, 0x2D];
    var declared := row.mimeType in {"application/pdf", "application/octet-stream"};
    if signed && |content| <= c.fetcherMax && c.parse(content).Pages? && declared then
      o.DocumentFetched? && o.contentSha256 == c.sha(content) && o.byteSize == |content|
    else
      && o.DocumentFetchRejected?
      && if !signed then o.fetchError == InvalidPdfSignature
         else if |content| > c.fetcherMax then o.fetchError == DocumentTooLarge
         else if c.parse(content).Encrypted? then o.fetchError == EncryptedPdf
         else if c.parse(content).Unreadable? then o.fetchError == CorruptPdf
         else c.parse(content).Pages? && o.fetchError == DeclaredMimeMismatch
  }

  /** What was read decides, except for the declared type, which only the tables know. */
  lemma ReadDecides(c: Config, row: VersionRow, content: Bytes, first: nat, inputs: FetchInputs, o: Event)
    requires SaysOf(c, content, first, Some(inputs)) && (first >= 5 || first == |content|)
    requires IsFetchOutcome(o) && Decides(inputs, o)
    requires o.DocumentFetched? ==>
               && row.mimeType in [PDF_MIME, OCTET_MIME]
               && o.contentSha256 == c.sha(content) && o.byteSize == |content|
    requires o.DocumentFetchRejected? && o.fetchError == DeclaredMimeMismatch ==>
               row.mimeType !in [PDF_MIME, OCTET_MIME]
    ensures IsVerdictOn(c, row, content, o)
  {
  }

  lemma OriginOfFetch(c: Config, run: seq<State>, steps: seq<Step>, n: nat, i: nat)
    returns (k: nat, e: Event, inputs: FetchInputs)
    requires IsRun(c, run, steps) && n <= |steps| && i < |run[n].db.outbox|
    requires IsFetchOutcome(run[n].db.outbox[i].event)
    ensures k < n && BeginsFetch(c, run, steps, k, e, inputs)
    ensures Doc(e) == Doc(run[n].db.outbox[i].event) && Decides(inputs, run[n].db.outbox[i].event)
  {
    OriginsInRuns(c, run, steps, n);
    var o := run[n].db.outbox[i].event;
    assert Events(run[n].db.outbox)[i] == o;
    assert EventOrigin(c, run, steps, n, o);
    e, inputs :| FetchBegan(c, run, steps, n, e, inputs) && Doc(e) == Doc(o) && Decides(inputs, o);
    k :| k < n && BeginsFetch(c, run, steps, k, e, inputs);
  }

  lemma DeclaredType(c: Config, run: seq<State>, steps: seq<Step>, n: nat, i: nat)
    requires IsRun(c, run, steps) && n <= |steps| && i < |run[n].db.outbox|
    requires IsFetchOutcome(run[n].db.outbox[i].event)
    ensures var o, f := run[n].db.outbox[i].event, View(run[n].db);
            && Known(f, Doc(o))
            && var row := f.versions[VersionOf(f, Doc(o))];
               && (o.DocumentFetched? ==>
                     && row.mimeType in [PDF_MIME, OCTET_MIME]
                     && o.contentSha256 == c.sha(BytesOf(c, run[n].sources, row))
                     && o.byteSize == |BytesOf(c, run[n].sources, row)|)
               && (o.DocumentFetchRejected? && o.fetchError == DeclaredMimeMismatch ==>
                     row.mimeType !in [PDF_MIME, OCTET_MIME])
  {
    var o, f := run[n].db.outbox[i].event, View(run[n].db);
    StoredOutcome(c, run, steps, n, i);
    TablesAreSound(c, run, steps, n);
    assert f.events[i] == o;
    assert Grounded(f, f.events[i]);
    DocumentExists(f, i);
    assert Known(f, Doc(o));
    StoredBytes(c, run, steps, n, VersionOf(f, Doc(o)));
  }

  /** If no first read falls short of a signature, the stored outcome of every fetch is the verdict on the bytes and on
      the declared type of the version: DocumentFetched for exactly those that pass, and for the others the rejection
      that says what they are. */
  lemma FetchOutcomeIsVerdict(c: Config, run: seq<State>, steps: seq<Step>, n: nat, i: nat)
    requires IsRun(c, run, steps) && AlwaysReadsInFull(c, run, steps) && n <= |steps| && i < |run[n].db.outbox|
    requires IsFetchOutcome(run[n].db.outbox[i].event)
    ensures var o, f := run[n].db.outbox[i].event, View(run[n].db);
            && Known(f, Doc(o))
            && var row := run[n].db.versions[VersionOf(f, Doc(o))];
               IsVerdictOn(c, row, BytesOf(c, run[n].sources, row), o)
  {
    var o := run[n].db.outbox[i].event;
    var k, e, inputs := OriginOfFetch(c, run, steps, n, i);
    FetchRead(c, run, steps, k, n, e, inputs);
    DeclaredType(c, run, steps, n, i);
    assert ReadsInFull(c, run[k], steps[k]);
    var row := run[n].db.versions[VersionOf(View(run[n].db), Doc(o))];
    ReadDecides(c, row, BytesOf(c, run[n].sources, row), steps[k].h.first, inputs, o);
  }

  // ---- What the converter said ----

  /** What an extraction that began in state `s` reads, and what it makes of the converter's answer. */
  lemma ExtractReads(c: Config, s: State, i: nat, conversion: Streams.Conversion,
                     outcome: Result<Streams.ExtractionResult, ExtractError>)
    requires TablesInv(s.db) && StoreInv(c, s) && OutcomesInv(c, s) && Relay.LogIsSent(RelayOf(s))
    requires Readable(s, i) && s.log[i].lane.topic == FetchedTopic
    requires ExtractOutcomeFor(c, s.sources, EventAt(s, i), conversion) == Some(outcome)
    ensures var e := EventAt(s, i);
            && e.DocumentFetched? && VersionRef(e) in s.db.versions
            && var content := BytesOf(c, s.sources, s.db.versions[VersionRef(e)]);
               && ReadSource(c, s.sources, e.payloadUri) == Some(content)
               && |content| > 0 && EndsIn(c, content, c.sha(content), conversion, Some(outcome))
  {
    TopicTellsType(s, i);
    FetchedVersion(c, s, i);
    var v := VersionRef(EventAt(s, i));
    assert SourceStored(c, s.sources, v, s.db.versions[v]);
    ReadsOwnObject(c, s, v);
    ExtractOutcomeIff(c, s.sources, EventAt(s, i), conversion);
  }

  lemma ExtractRead(c: Config, may: Converter, run: seq<State>, steps: seq<Step>, k: nat, n: nat, e: Event,
                    outcome: Result<Streams.ExtractionResult, ExtractError>)
    requires IsRunWith(c, may, run, steps) && k < n <= |steps| && BeginsExtract(c, run, steps, k, e, outcome)
    ensures e.DocumentFetched? && VersionRef(e) in run[n].db.versions
    ensures var content := BytesOf(c, run[n].sources, run[n].db.versions[VersionRef(e)]);
            && |content| > 0 && may(content, steps[k].h.conversion)
            && EndsIn(c, content, c.sha(content), steps[k].h.conversion, Some(outcome))
  {
    ReachableInv(c, run, steps, k);
    ExtractReads(c, run[k], steps[k].h.i, steps[k].h.conversion, outcome);
    assert AnswersAt(c, may, run, steps, k);
    SourceIsImmutable(c, run, steps, k, n, VersionRef(e));
  }

  /** What the extractor has to make of this answer to these bytes. */
  predicate IsAnswered(c: Config, content: Bytes, conversion: Streams.Conversion, o: Event) {
    if |content| > c.extractMax then o.ContentExtractionRejected? && o.extractError == SourceTooLarge
    else
      match conversion
      case NotConverted => o.ContentExtractionRejected? && o.extractError == ConversionFailed
      case NotADocument => o.ContentExtractionRejected? && o.extractError == InvalidConverterOutput
      case Converted(_, markdown) =>
        o.ContentExtracted? && o.extractionStatus == if Streams.NoText(markdown) then NeedsReview else Succeeded
      case ConverterMissing => false
  }

  lemma AnswerDecides(c: Config, content: Bytes, conversion: Streams.Conversion,
                      outcome: Result<Streams.ExtractionResult, ExtractError>, o: Event)
    requires |content| > 0 && EndsIn(c, content, c.sha(content), conversion, Some(outcome))
    requires IsExtractOutcome(o) && Reports(outcome, o)
    ensures IsAnswered(c, content, conversion, o)
  {
  }

  /** Every stored outcome of an extraction is what follows from an answer that the converter may have given to the
      bytes of the version. */
  lemma ExtractOutcomeIsAnswer(c: Config, may: Converter, run: seq<State>, steps: seq<Step>, n: nat, i: nat)
    returns (conversion: Streams.Conversion)
    requires IsRunWith(c, may, run, steps) && n <= |steps| && i < |run[n].db.outbox|
    requires IsExtractOutcome(run[n].db.outbox[i].event)
    ensures var o := run[n].db.outbox[i].event;
            && VersionRef(o) in run[n].db.versions
            && var content := BytesOf(c, run[n].sources, run[n].db.versions[VersionRef(o)]);
               may(content, conversion) && IsAnswered(c, content, conversion, o)
  {
    var o := run[n].db.outbox[i].event;
    var k, e, outcome := OriginOfExtract(c, run, steps, n, i);
    ExtractRead(c, may, run, steps, k, n, e, outcome);
    conversion := steps[k].h.conversion;
    AnswerDecides(c, BytesOf(c, run[n].sources, run[n].db.versions[VersionRef(o)]), conversion, outcome, o);
  }

  lemma OriginOfExtract(c: Config, run: seq<State>, steps: seq<Step>, n: nat, i: nat)
    returns (k: nat, e: Event, outcome: Result<Streams.ExtractionResult, ExtractError>)
    requires IsRun(c, run, steps) && n <= |steps| && i < |run[n].db.outbox|
    requires IsExtractOutcome(run[n].db.outbox[i].event)
    ensures k < n && BeginsExtract(c, run, steps, k, e, outcome) && e.DocumentFetched?
    ensures VersionRef(e) == VersionRef(run[n].db.outbox[i].event) && Reports(outcome, run[n].db.outbox[i].event)
  {
    OriginsInRuns(c, run, steps, n);
    var o := run[n].db.outbox[i].event;
    assert Events(run[n].db.outbox)[i] == o;
    assert EventOrigin(c, run, steps, n, o);
    e, outcome :| ExtractBegan(c, run, steps, n, e, outcome)
                  && e.DocumentFetched? && VersionRef(e) == VersionRef(o) && Reports(outcome, o);
    k :| k < n && BeginsExtract(c, run, steps, k, e, outcome);
  }
}
