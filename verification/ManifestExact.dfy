/** Exactly when the stored manifest of a version always says what its committed row says. */
module ManifestExact {
  import opened Domain
  import opened Ledger
  import opened Provenance
  import opened SourceKeys
  import opened Pipeline
  import opened PipelineSteps
  import opened Reachability
  import opened Ingestion
  import opened Samples
  import opened ArtifactContents
  import Streams

  const OWNER: Ref := (Uuid('1'), Uuid('1'))

  function Fetched(c: Config, content: Bytes): Event {
    FetchedEvent(c, SampleCall('1', content), Uuid('2'))
  }

  function TwoRuns(a: Streams.ExtractionResult, stored: nat, b: Streams.ExtractionResult): map<nat, ExtractRun> {
    map[0 := ExtractRun(1, Ok(a), stored, false), 1 := ExtractRun(1, Ok(b), 0, false)]
  }

  lemma FirstBegins(c: Config, may: Converter, content: Bytes, a: Streams.ExtractionResult) returns (s: State)
    requires IsBucket(c.bucket) && c.slots >= 1 && Possible(c, may, content, a)
    ensures Reaches(c, may, OneTenant(), s) && s.runs == map[0 := ExtractRun(1, Ok(a), 0, false)]
    ensures CanExtract(c, s, 1, SampleCall('1', content), Uuid('2'), Uuid('3'))
  {
    var conversion :| Gives(c, may, content, conversion, a);
    var sample := SampleReaches(c, may, content);
    BegunReaches(c, may, OneTenant(), sample, 0, 1, SampleCall('1', content), Uuid('2'), Uuid('3'), conversion, a);
    s := BegunRun(sample, 0, 1, a);
  }

  /** One handler is about to commit `a` when another has already extracted `b` from the same bytes. */
  lemma TwoExtractions(c: Config, may: Converter, content: Bytes, a: Streams.ExtractionResult,
                       b: Streams.ExtractionResult)
    returns (s: State)
    requires IsBucket(c.bucket) && c.slots >= 1 && Possible(c, may, content, a) && Possible(c, may, content, b)
    ensures Reaches(c, may, OneTenant(), s) && Readable(s, 1) && EventAt(s, 1) == Fetched(c, content)
    ensures ExtractIsNew(s, 1, Uuid('3'))
    ensures s.runs == TwoRuns(a, 0, b)
  {
    var conversion :| Gives(c, may, content, conversion, b);
    var one := FirstBegins(c, may, content, a);
    BegunReaches(c, may, OneTenant(), one, 1, 1, SampleCall('1', content), Uuid('2'), Uuid('3'), conversion, b);
    s := BegunRun(one, 1, 1, b);
  }

  lemma SampleVersion(c: Config, may: Converter, content: Bytes, s: State)
    requires Reaches(c, may, OneTenant(), s) && Readable(s, 1) && EventAt(s, 1) == Fetched(c, content)
    ensures OWNER in s.db.versions && s.db.versions[OWNER].contentSha256 == c.sha(content)
    ensures VersionOf(View(s.db), Doc(Fetched(c, content))) == OWNER
  {
    ReachedInv(c, may, OneTenant(), s);
    FetchedVersion(c, s, 1);
  }

  lemma CommittedStatus(c: Config, content: Bytes, db: Db, status: ExtractionStatus, now: Time, after: Db)
    requires OWNER in db.versions && VersionOf(View(db), Doc(Fetched(c, content))) == OWNER
    requires ExtractApplies(c, db, Fetched(c, content), Ok(status), Uuid('3'), now, after)
    ensures OWNER in after.versions && after.versions[OWNER].extraction == status
    ensures after.versions[OWNER].contentSha256 == db.versions[OWNER].contentSha256
  {
    assert after.versions == View(after).versions;
  }

  function BothStored(s: State, r: nat, e: Event): State
    requires r in s.runs && s.runs[r].outcome.Ok? && e.DocumentFetched?
  {
    var result := s.runs[r].outcome.value;
    s.(now := s.now + 2, runs := s.runs[r := s.runs[r].(stored := 2)],
       artifacts := s.artifacts[NormalizedFor(e) := Streams.NormalizedOf(result)]
                               [ManifestFor(e) := Streams.ManifestOf(result, e.contentSha256)])
  }

  /** The first extraction is stored. */
  lemma FirstIsStored(c: Config, may: Converter, content: Bytes, a: Streams.ExtractionResult,
                      b: Streams.ExtractionResult)
    returns (t: State)
    requires IsBucket(c.bucket) && c.slots >= 1 && Possible(c, may, content, a) && Possible(c, may, content, b)
    ensures Reaches(c, may, OneTenant(), t) && Readable(t, 1) && EventAt(t, 1) == Fetched(c, content)
    ensures t.runs == TwoRuns(a, 2, b) && ExtractIsNew(t, 1, Uuid('3'))
  {
    var s := TwoExtractions(c, may, content, a, b);
    t := BothStored(s, 0, Fetched(c, content));
    ArtifactsReach(c, may, OneTenant(), s, 0, t);
    assert TwoRuns(a, 0, b)[0 := ExtractRun(1, Ok(a), 2, false)] == TwoRuns(a, 2, b);
  }

  /** And committed. */
  lemma FirstIsCommitted(c: Config, may: Converter, content: Bytes, a: Streams.ExtractionResult,
                         b: Streams.ExtractionResult, s: State)
    returns (t: State)
    requires Reaches(c, may, OneTenant(), s) && Readable(s, 1) && EventAt(s, 1) == Fetched(c, content)
    requires s.runs == TwoRuns(a, 2, b) && ExtractIsNew(s, 1, Uuid('3'))
    ensures Reaches(c, may, OneTenant(), t) && Readable(t, 1) && EventAt(t, 1) == Fetched(c, content)
    ensures t.runs == map[1 := ExtractRun(1, Ok(b), 0, false)]
    ensures OWNER in t.db.versions && t.db.versions[OWNER].extraction == a.status
    ensures t.db.versions[OWNER].contentSha256 == c.sha(content)
  {
    SampleVersion(c, may, content, s);
    var db := ExtractionReaches(c, may, OneTenant(), s, 0, Uuid('3'));
    CommittedStatus(c, content, s.db, a.status, s.now + 1, db);
    t := AfterFinish(s, 0, db);
    assert TwoRuns(a, 2, b) - {0} == map[1 := ExtractRun(1, Ok(b), 0, false)];
  }

  /** And then the second replaces both objects. */
  lemma LaterManifestWins(c: Config, may: Converter, content: Bytes, a: Streams.ExtractionResult,
                          b: Streams.ExtractionResult)
    returns (t: State)
    requires IsBucket(c.bucket) && c.slots >= 1 && Possible(c, may, content, a) && Possible(c, may, content, b)
    ensures Reaches(c, may, OneTenant(), t) && OWNER in t.db.versions && t.db.versions[OWNER].extraction == a.status
    ensures var manifest := ManifestKey(OWNER.0, OWNER.1, c.sha(content));
            && t.db.versions[OWNER].contentSha256 == c.sha(content)
            && manifest in t.artifacts && t.artifacts[manifest] == Streams.ManifestOf(b, c.sha(content))
  {
    var stored := FirstIsStored(c, may, content, a, b);
    var s := FirstIsCommitted(c, may, content, a, b, stored);
    t := BothStored(s, 1, Fetched(c, content));
    ArtifactsReach(c, may, OneTenant(), s, 1, t);
  }

  lemma Disagreement(c: Config, may: Converter, content: Bytes, a: Streams.ExtractionResult,
                     b: Streams.ExtractionResult)
    requires IsBucket(c.bucket) && c.slots >= 1 && Possible(c, may, content, a) && Possible(c, may, content, b)
    requires a.status != b.status
    ensures !ManifestsAlwaysAgree(c, may)
  {
    var t := LaterManifestWins(c, may, content, a, b);
    var run, steps := RunTo(c, may, OneTenant(), t);
    var document, markdown := ResultIsFaithful(c, may, content, a);
    assert !ManifestAgrees(run[|steps|], OWNER);
  }

  /** The manifest of every converted version says in every state what its row says if and only if the converter,
      whatever it may answer, leads to one status for the same bytes. */
  lemma ManifestsAgreeIff(c: Config, may: Converter)
    requires IsBucket(c.bucket) && c.slots >= 1
    ensures ManifestsAlwaysAgree(c, may) <==> OneStatusEach(c, may)
  {
    if OneStatusEach(c, may) {
      forall run: seq<State>, steps: seq<Step>, n: nat, v
        | IsRunWith(c, may, run, steps) && n <= |steps| && v in run[n].db.versions
        ensures ManifestAgrees(run[n], v)
      {
        OneStatusAgrees(c, may, run, steps, n, v);
      }
    } else {
      var content, a, b :| Possible(c, may, content, a) && Possible(c, may, content, b) && a.status != b.status;
      Disagreement(c, may, content, a, b);
    }
  }
}
