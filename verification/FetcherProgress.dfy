/** The fetcher can always get past the next record of a partition, if its source can be read: restart, poll, handle,
    commit. */
module FetcherProgress {
  import opened Domain
  import opened Ledger
  import opened Provenance
  import opened Pipeline
  import opened PipelineInvariant
  import opened Reachability
  import Consumption

  /** Record `i` is the first of its partition that is not committed. */
  ghost predicate IsNextToCommit(s: State, i: nat) {
    Consumption.CanPoll(Lanes(s.log), SubmittedTopic, 1, Consumption.Restart(s.fetcher), i)
  }

  lemma RestartReaches(c: Config, may: Converter, o: State, s: State, t: State)
    requires Reaches(c, may, o, s)
    requires t == s.(now := s.now + 1, fetcher := Consumption.Restart(s.fetcher), fetches := DisownedFetches(s.fetches))
    ensures Reaches(c, may, o, t)
  {
    StepReaches(c, may, o, s, Looping(RestartFetcher), t);
  }

  lemma PollReaches(c: Config, may: Converter, o: State, s: State, i: nat, t: State)
    requires Reaches(c, may, o, s) && Consumption.CanPoll(Lanes(s.log), SubmittedTopic, 1, s.fetcher, i)
    requires t == s.(now := s.now + 1, fetcher := Consumption.Poll(Lanes(s.log), s.fetcher, i))
    ensures Reaches(c, may, o, t)
  {
    StepReaches(c, may, o, s, Looping(PollFetcher(i)), t);
  }

  lemma BeginReaches(c: Config, may: Converter, o: State, s: State, r: nat, i: nat, first: nat, inputs: FetchInputs,
                     t: State)
    requires Reaches(c, may, o, s) && r !in s.fetches && Readable(s, i) && s.log[i].lane.topic == SubmittedTopic
    requires i in s.fetcher.inflight && FetchInputsFor(c, s.sources, EventAt(s, i), first) == Some(inputs)
    requires t == s.(now := s.now + 1, fetches := s.fetches[r := FetchRun(i, inputs, true)])
    ensures Reaches(c, may, o, t)
  {
    StepReaches(c, may, o, s, Handling(BeginFetch(r, i, first, true)), t);
  }

  lemma EndReaches(c: Config, may: Converter, o: State, s: State, r: nat, i: nat, inputs: FetchInputs, newId: Id,
                   t: State)
    requires Reaches(c, may, o, s) && r in s.fetches && s.fetches[r] == FetchRun(i, inputs, true) && Readable(s, i)
    requires i in s.fetcher.inflight && FetchTx(s, r, newId, s.now + 1).Committed?
    requires t == s.(now := s.now + 1, db := FetchTx(s, r, newId, s.now + 1).db, fetches := s.fetches - {r},
                     fetcher := Consumption.Return(s.fetcher, i))
    ensures Reaches(c, may, o, t)
  {
    StepReaches(c, may, o, s, Handling(FinishFetch(r, newId)), t);
  }

  lemma CommitReaches(c: Config, may: Converter, o: State, s: State, i: nat, t: State)
    requires Reaches(c, may, o, s) && i in s.fetcher.done && i < |s.log|
    requires t == s.(now := s.now + 1, fetcher := Consumption.Commit(Lanes(s.log), s.fetcher, i))
    ensures Reaches(c, may, o, t)
  {
    StepReaches(c, may, o, s, Looping(CommitFetcher(i)), t);
  }

  /** The consumer has been restarted and has polled record `i`, and nothing else. */
  function AfterPoll(s: State, i: nat): State
    requires i < |s.log|
  {
    s.(now := s.now + 2, fetcher := Consumption.Poll(Lanes(s.log), Consumption.Restart(s.fetcher), i),
       fetches := DisownedFetches(s.fetches))
  }

  lemma PolledReaches(c: Config, may: Converter, o: State, s: State, i: nat)
    requires Reaches(c, may, o, s) && IsNextToCommit(s, i) && i < |s.log|
    ensures Reaches(c, may, o, AfterPoll(s, i))
  {
    var restarted := s.(now := s.now + 1, fetcher := Consumption.Restart(s.fetcher),
                        fetches := DisownedFetches(s.fetches));
    RestartReaches(c, may, o, s, restarted);
    PollReaches(c, may, o, restarted, i, AfterPoll(s, i));
  }

  lemma DuplicateCommits(db: Db, e: Event, inputs: FetchInputs, newId: Id, now: Time)
    requires e.DocumentSubmitted? && FetchKey(e) in db.processed
    ensures Fetch(db, e, inputs.inspection, inputs.error, newId, now) == Committed(db, false)
  {
  }

  lemma RecordsKey(db: Db, e: Event, inputs: FetchInputs, newId: Id, now: Time)
    requires Fetch(db, e, inputs.inspection, inputs.error, newId, now).Committed?
    ensures FetchKey(e) in Fetch(db, e, inputs.inspection, inputs.error, newId, now).db.processed
  {
    FetchHasOneEffect(db, e, inputs.inspection, inputs.error, newId, now);
  }

  lemma RunIsOfSubmission(c: Config, may: Converter, o: State, s: State, r: nat)
    requires Reaches(c, may, o, s) && r in s.fetches && Readable(s, s.fetches[r].record)
    ensures EventAt(s, s.fetches[r].record).DocumentSubmitted?
  {
    ReachedInv(c, may, o, s);
    assert FetchRunOk(c, s, s.fetches[r]);
  }

  /** The transaction of a record: of a new one, or of one that is processed already and changes nothing. */
  lemma TransactionCommits(c: Config, may: Converter, o: State, s: State, r: nat, newId: Id, now: Time)
    requires Reaches(c, may, o, s) && r in s.fetches && Readable(s, s.fetches[r].record)
    requires FetchKey(EventAt(s, s.fetches[r].record)) in s.db.processed || FetchIsNew(s, s.fetches[r].record, newId)
    ensures FetchTx(s, r, newId, now).Committed?
    ensures FetchKey(EventAt(s, s.fetches[r].record)) in FetchTx(s, r, newId, now).db.processed
  {
    var e, inputs := EventAt(s, s.fetches[r].record), s.fetches[r].inputs;
    if FetchIsNew(s, s.fetches[r].record, newId) {
      NewFetchApplies(c, may, o, s, r, newId, now);
    } else {
      RunIsOfSubmission(c, may, o, s, r);
      DuplicateCommits(s.db, e, inputs, newId, now);
    }
    RecordsKey(s.db, e, inputs, newId, now);
  }

  lemma HandledReaches(c: Config, may: Converter, o: State, s: State, i: nat, first: nat, inputs: FetchInputs,
                       newId: Id)
    returns (t: State)
    requires Reaches(c, may, o, s) && Readable(s, i) && s.log[i].lane.topic == SubmittedTopic
    requires i in s.fetcher.inflight && FetchInputsFor(c, s.sources, EventAt(s, i), first) == Some(inputs)
    requires FetchKey(EventAt(s, i)) in s.db.processed || FetchIsNew(s, i, newId)
    ensures Reaches(c, may, o, t) && FetchKey(EventAt(s, i)) in t.db.processed
    ensures t == s.(now := s.now + 2, db := t.db, fetcher := Consumption.Return(s.fetcher, i))
  {
    var r := Above(s.fetches.Keys);
    var begun := s.(now := s.now + 1, fetches := s.fetches[r := FetchRun(i, inputs, true)]);
    BeginReaches(c, may, o, s, r, i, first, inputs, begun);
    assert Readable(begun, i) && EventAt(begun, i) == EventAt(s, i);
    TransactionCommits(c, may, o, begun, r, newId, s.now + 2);
    t := s.(now := s.now + 2, db := FetchTx(begun, r, newId, s.now + 2).db,
            fetcher := Consumption.Return(s.fetcher, i));
    assert begun.fetches - {r} == s.fetches;
    EndReaches(c, may, o, begun, r, i, inputs, newId, t);
  }

  lemma PolledIsInFlight(s: State, i: nat)
    requires Readable(s, i)
    ensures var t := AfterPoll(s, i);
            && i in t.fetcher.inflight && Readable(t, i) && EventAt(t, i) == EventAt(s, i)
            && t.log == s.log && t.db == s.db && t.sources == s.sources
  {
  }

  /** From any reached state, the fetcher can go on to commit past the next record of a partition, whose key is then
      recorded, whether the record was processed before or not. Nothing else changes but its one transaction, and that
      handlers of the time before are no longer the consumer's. */
  lemma FetcherAdvances(c: Config, may: Converter, o: State, s: State, i: nat, first: nat, inputs: FetchInputs,
                        newId: Id)
    returns (t: State)
    requires Reaches(c, may, o, s) && Readable(s, i) && s.log[i].lane.topic == SubmittedTopic && IsNextToCommit(s, i)
    requires FetchInputsFor(c, s.sources, EventAt(s, i), first) == Some(inputs)
    requires FetchKey(EventAt(s, i)) in s.db.processed || FetchIsNew(s, i, newId)
    ensures Reaches(c, may, o, t) && FetchKey(EventAt(s, i)) in t.db.processed
    ensures t == s.(now := s.now + 5, db := t.db, fetcher := t.fetcher, fetches := DisownedFetches(s.fetches))
    ensures t.fetcher.inflight == {} && t.fetcher.committed == s.fetcher.committed[s.log[i].lane.partition := i + 1]
  {
    var polled := AfterPoll(s, i);
    PolledReaches(c, may, o, s, i);
    PolledIsInFlight(s, i);
    var handled := HandledReaches(c, may, o, polled, i, first, inputs, newId);
    t := handled.(now := s.now + 5, fetcher := Consumption.Commit(Lanes(s.log), handled.fetcher, i));
    CommitReaches(c, may, o, handled, i, t);
  }
}
