/** Documents of tenants who have nothing yet, for the runs that show what can happen. */
module Samples {
  import opened Domain
  import opened Ledger
  import opened SourceKeys
  import opened Pipeline
  import opened Reachability
  import opened Ingestion
  import Consumption
  import Outbox
  import Relay

  function Uuid(x: char): (r: Id)
    requires UuidChar(x)
    ensures IsUuid(r) && r[0] == x
  {
    seq(36, i => x)
  }

  function StartOf(tenants: set<Id>): State {
    State(0, Db(tenants, map[], map[], {}, []), map[], [], [], map[], map[], {}, map[], map[], map[],
          Consumption.FRESH_LOOP, Consumption.FRESH_LOOP)
  }

  function OneTenant(): State {
    StartOf({Uuid('1')})
  }

  function TwoTenants(): State {
    StartOf({Uuid('1'), Uuid('4')})
  }

  /** A request of tenant `x`, who has no more than this one document. */
  function SampleCall(x: char, content: Bytes): Call
    requires UuidChar(x)
  {
    Call(Uuid(x), Uuid(x), Uuid(x), Uuid(x), "a", "x", PDF_MIME, content, Uploading)
  }

  /** Nothing stored so far concerns tenant `id`. */
  ghost predicate IsNewTenant(s: State, id: Id) {
    && id in s.db.tenants && id !in s.issued
    && (forall d :: d in s.db.documents ==> d.0 != id && d.1 != id)
    && (forall v :: v in s.db.versions ==> v.0 != id && v.1 != id)
    && (forall r :: 0 <= r < |s.db.outbox| ==> s.db.outbox[r].event.tenantId != id)
  }

  lemma SampleCanSubmit(c: Config, s: State, x: char, content: Bytes)
    requires UuidChar(x) && |content| <= c.apiMax && IsNewTenant(s, Uuid(x))
    ensures CanSubmit(c, s, SampleCall(x, content))
    ensures forall newId :: newId != Uuid(x) ==> NewEventId(s, SampleCall(x, content), newId)
  {
  }

  lemma SampleStarts(c: Config, may: Converter, tenants: set<Id>)
    requires IsBucket(c.bucket) && c.slots >= 1 && forall t :: t in tenants ==> IsUuid(t)
    ensures Reaches(c, may, StartOf(tenants), StartOf(tenants))
  {
    StartReaches(c, may, StartOf(tenants));
  }

  /** A document of a new tenant gets to the extractor's topic. */
  lemma SampleGoesOn(c: Config, may: Converter, o: State, s: State, x: char, content: Bytes, newId: Id)
    returns (t: State)
    requires UuidChar(x) && Passes(c, content) && newId != Uuid(x)
    requires Reaches(c, may, o, s) && IsNewTenant(s, Uuid(x)) && NoneWaits(s.db.outbox)
    ensures Reaches(c, may, o, t) && IsIngested(c, s, SampleCall(x, content), newId, t)
  {
    SampleCanSubmit(c, s, x, content);
    t := Ingests(c, may, o, s, SampleCall(x, content), newId);
  }

  lemma SampleIngests(c: Config, may: Converter, content: Bytes) returns (t: State)
    requires IsBucket(c.bucket) && c.slots >= 1 && Passes(c, content)
    ensures Reaches(c, may, OneTenant(), t)
    ensures IsIngested(c, OneTenant(), SampleCall('1', content), Uuid('2'), t)
  {
    SampleStarts(c, may, {Uuid('1')});
    assert Uuid('2')[0] != Uuid('1')[0];
    t := SampleGoesOn(c, may, OneTenant(), OneTenant(), '1', content, Uuid('2'));
  }

  /** The sample document is fetched, and nothing is extracted yet. */
  ghost predicate IsSample(c: Config, content: Bytes, s: State) {
    && CanExtract(c, s, 1, SampleCall('1', content), Uuid('2'), Uuid('3'))
    && s.runs == map[] && |s.db.outbox| == 2
  }

  lemma SampleIdsAreNew(c: Config, content: Bytes, s: State)
    requires IsIngested(c, OneTenant(), SampleCall('1', content), Uuid('2'), s)
    ensures ExtractIsNew(s, 1, Uuid('3')) && |s.db.outbox| == 2
  {
    var events := Events(s.db.outbox);
    assert |events| == 2 && s.db.outbox[0].event == events[0] && s.db.outbox[1].event == events[1];
    assert Uuid('1')[0] == '1' && Uuid('2')[0] == '2' && Uuid('3')[0] == '3';
  }

  lemma SampleIsSample(c: Config, content: Bytes, s: State)
    requires IsBucket(c.bucket) && IsIngested(c, OneTenant(), SampleCall('1', content), Uuid('2'), s)
    ensures IsSample(c, content, s)
  {
    SampleIdsAreNew(c, content, s);
    ReadsBack(c, s.sources, SampleCall('1', content));
  }

  lemma SampleReaches(c: Config, may: Converter, content: Bytes) returns (s: State)
    requires IsBucket(c.bucket) && c.slots >= 1 && Passes(c, content)
    ensures Reaches(c, may, OneTenant(), s) && IsSample(c, content, s)
  {
    s := SampleIngests(c, may, content);
    SampleIsSample(c, content, s);
  }

  // ---- A claimed submission ----

  function SubmittedRow(c: Config, x: char, now: Time): Outbox.Row
    requires UuidChar(x)
  {
    Outbox.NewRow(RootEvent(c, SampleCall(x, [])), SubmittedTopic, now)
  }

  const ITEM := Relay.Item(0, 1)

  /** Tenant 1 has submitted at 3, and publisher 0 has claimed the row at 5. */
  ghost predicate IsClaimed(c: Config, tenants: set<Id>, s: State) {
    && s.now == 5 && s.db.outbox == [Outbox.Lock(SubmittedRow(c, '1', 3), "w", 5)]
    && s.publishers == map[0 := Holding(ITEM, Relay.Waiting)] && s.wire == [] && s.calls == map[]
    && s.issued == {Uuid('1')} && s.db.tenants == tenants
    && s.db.documents.Keys == {(Uuid('1'), Uuid('1'))} && s.db.versions.Keys == {(Uuid('1'), Uuid('1'))}
  }

  lemma SampleSubmitted(c: Config, may: Converter, tenants: set<Id>)
    requires IsBucket(c.bucket) && c.slots >= 1 && Uuid('1') in tenants && forall t :: t in tenants ==> IsUuid(t)
    ensures CanSubmit(c, StartOf(tenants), SampleCall('1', []))
    ensures Reaches(c, may, StartOf(tenants), AfterSubmission(c, StartOf(tenants), SampleCall('1', [])))
  {
    var o := StartOf(tenants);
    SampleStarts(c, may, tenants);
    SampleCanSubmit(c, o, '1', []);
    SubmissionReaches(c, may, o, o, SampleCall('1', []));
  }

  lemma SampleIsClaimed(c: Config, tenants: set<Id>)
    requires CanSubmit(c, StartOf(tenants), SampleCall('1', []))
    ensures var s := AfterSubmission(c, StartOf(tenants), SampleCall('1', []));
            && s.publishers == map[] && s.wire == [] && IsFirst(s.db.outbox, s.now, 0)
            && IsClaimed(c, tenants, AfterClaim(s, 0, 0))
  {
    var s := AfterSubmission(c, StartOf(tenants), SampleCall('1', []));
    assert s.db.outbox == [SubmittedRow(c, '1', 3)];
    assert AfterClaim(s, 0, 0).db.documents.Keys == {(Uuid('1'), Uuid('1'))};
  }

  lemma ClaimedReaches(c: Config, may: Converter, tenants: set<Id>) returns (t: State)
    requires IsBucket(c.bucket) && c.slots >= 1 && Uuid('1') in tenants && forall t :: t in tenants ==> IsUuid(t)
    ensures Reaches(c, may, StartOf(tenants), t) && IsClaimed(c, tenants, t)
  {
    SampleSubmitted(c, may, tenants);
    SampleIsClaimed(c, tenants);
    var s := AfterSubmission(c, StartOf(tenants), SampleCall('1', []));
    ClaimReaches(c, may, StartOf(tenants), s, 0, 0);
    t := AfterClaim(s, 0, 0);
  }
}
