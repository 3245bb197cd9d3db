/** What a refused submission leaves behind once its compensating delete has returned: nothing, for ever. */
module Refusals {
  import opened Domain
  import opened Ledger
  import opened Provenance
  import opened SourceKeys
  import opened Pipeline
  import opened PipelineInvariant
  import opened PipelineSteps
  import opened Guarantees
  import Relay

  /** Document id `d` was drawn, and nothing of it is left: no request, no object and no row. */
  ghost predicate Gone(s: State, d: Id) {
    && d in s.issued && d !in s.calls && Unclaimed(s.sources, d)
    && forall x :: x in s.db.documents ==> x.1 != d
  }

  lemma GoneStays(s: State, t: State, d: Id)
    requires Gone(s, d) && t.issued == s.issued && t.calls == s.calls && t.sources == s.sources
    requires t.db.documents.Keys == s.db.documents.Keys
    ensures Gone(t, d)
  {
    forall x | x in t.db.documents ensures x.1 != d {
      assert x in t.db.documents.Keys;
    }
  }

  // ---- Requests of other documents ----

  lemma OtherKey(c: Config, s: State, q: Id, d: Id)
    requires StoreInv(c, s) && q in s.calls && Gone(s, d)
    ensures q != d && OwnerOf(KeyFor(s.calls[q])) == q
  {
    CallOwnsKey(c, s, q);
  }

  lemma RequestKeepsGone(c: Config, s: State, now: Time, q: RequestStep, t: State, d: Id)
    requires StoreInv(c, s) && Gone(s, d) && !q.CommitSubmission?
    requires RequestEnabled(c, s, q) && t == RequestNext(c, s, now, q)
    ensures Gone(t, d)
  {
    match q
    case Receive(call) =>
    case PutObject(o) => OtherKey(c, s, o, d);
    case PutFails(o, kept) => OtherKey(c, s, o, d);
    case CommitAborts(o) => OtherKey(c, s, o, d);
    case DeleteObject(o) => OtherKey(c, s, o, d);
    case LoseCall(o) => OtherKey(c, s, o, d);
  }

  lemma CommitKeepsGone(c: Config, s: State, now: Time, q: RequestStep, t: State, d: Id)
    requires StoreInv(c, s) && Lineage(View(s.db)) && Gone(s, d) && s.now < now && q.CommitSubmission?
    requires RequestEnabled(c, s, q) && t == RequestNext(c, s, now, q)
    ensures Gone(t, d)
  {
    CommitFrame(c, s, now, q, t);
    OtherKey(c, s, q.d, d);
    if CreateSubmission(s.db, SubmissionFor(c, s.calls[q.d]), now).Committed? {
      SubmissionWellFormed(c, s, q.d);
      SubmissionFacts(s.db, SubmissionFor(c, s.calls[q.d]), now);
      assert t.db.documents == View(t.db).documents;
    }
  }

  // ---- The other steps ----

  lemma FetchKeepsGone(c: Config, s: State, now: Time, h: HandlerStep, t: State, d: Id)
    requires Inv(c, s) && Gone(s, d) && s.now < now && h.FinishFetch?
    requires HandlerEnabled(c, s, now, h) && t == HandlerNext(c, s, now, h)
    ensures Gone(t, d)
  {
    FinishFetchFrame(c, s, now, h, t);
    FetchKeepsTablesInv(c, s, t, h.r, h.newId);
    GoneStays(s, t, d);
  }

  lemma ExtractKeepsGone(c: Config, s: State, now: Time, h: HandlerStep, t: State, d: Id)
    requires Inv(c, s) && Gone(s, d) && s.now < now && h.FinishExtract?
    requires HandlerEnabled(c, s, now, h) && t == HandlerNext(c, s, now, h)
    ensures Gone(t, d)
  {
    FinishExtractFrame(c, s, now, h, t);
    FinishKeepsTablesInv(c, s, t, h.r, h.newId);
    GoneStays(s, t, d);
  }

  lemma OtherHandlerFrame(c: Config, s: State, now: Time, h: HandlerStep, t: State)
    requires !h.FinishFetch? && !h.FinishExtract? && HandlerEnabled(c, s, now, h) && t == HandlerNext(c, s, now, h)
    ensures t.issued == s.issued && t.calls == s.calls && t.sources == s.sources && t.db == s.db
  {
  }

  lemma RelayKeepsGone(s: State, r: Relay.State, d: Id)
    requires Gone(s, d)
    ensures Gone(WithRelay(s, r), d)
  {
  }

  lemma LoopFrame(c: Config, s: State, now: Time, l: LoopStep)
    requires LoopEnabled(c, s, l)
    ensures var t := LoopNext(c, s, now, l);
            t.issued == s.issued && t.calls == s.calls && t.sources == s.sources && t.db == s.db
  {
  }

  lemma RestKeepsGone(c: Config, s: State, now: Time, a: Step, t: State, d: Id)
    requires !a.Requesting? && !a.Handling? && Gone(s, d) && Enabled(c, s, now, a) && t == Next(c, s, now, a)
    ensures Gone(t, d)
  {
    match a
    case Relaying(b) => RelayKeepsGone(s.(now := now), Relay.Next(RelayOf(s), now, b), d);
    case Looping(l) =>
      LoopFrame(c, s, now, l);
      GoneStays(s, t, d);
    case Tick =>
  }

  lemma StepKeepsGone(c: Config, s: State, now: Time, a: Step, t: State, d: Id)
    requires Inv(c, s) && Gone(s, d) && s.now < now && Enabled(c, s, now, a) && t == Next(c, s, now, a)
    ensures Gone(t, d)
  {
    if a.Requesting? {
      if a.q.CommitSubmission? {
        CommitKeepsGone(c, s, now, a.q, t, d);
      } else {
        RequestKeepsGone(c, s, now, a.q, t, d);
      }
    } else if a.Handling? {
      if a.h.FinishFetch? {
        FetchKeepsGone(c, s, now, a.h, t, d);
      } else if a.h.FinishExtract? {
        ExtractKeepsGone(c, s, now, a.h, t, d);
      } else {
        OtherHandlerFrame(c, s, now, a.h, t);
        GoneStays(s, t, d);
      }
    } else {
      RestKeepsGone(c, s, now, a, t, d);
    }
  }

  lemma NextKeepsGone(c: Config, run: seq<State>, steps: seq<Step>, k: nat, d: Id)
    requires IsRun(c, run, steps) && k < |steps| && Gone(run[k], d)
    ensures Gone(run[k + 1], d)
  {
    ReachableInv(c, run, steps, k);
    assert StepAt(c, run, steps, k);
    StepKeepsGone(c, run[k], run[k + 1].now, steps[k], run[k + 1], d);
  }

  lemma DeleteLeavesNothing(c: Config, s: State, now: Time, d: Id, t: State)
    requires StoreInv(c, s) && RequestEnabled(c, s, DeleteObject(d)) && t == RequestNext(c, s, now, DeleteObject(d))
    ensures Gone(t, d) && IsUuid(d)
  {
    assert CallOk(c, s, d, s.calls[d]);
  }

  lemma DeletedAt(c: Config, run: seq<State>, steps: seq<Step>, i: nat, d: Id)
    requires IsRun(c, run, steps) && i < |steps| && steps[i] == Requesting(DeleteObject(d))
    ensures Gone(run[i + 1], d) && IsUuid(d)
  {
    ReachableInv(c, run, steps, i);
    assert StepAt(c, run, steps, i);
    DeleteLeavesNothing(c, run[i], run[i + 1].now, d, run[i + 1]);
  }

  lemma {:induction false} GoneForever(c: Config, run: seq<State>, steps: seq<Step>, i: nat, j: nat, d: Id)
    requires IsRun(c, run, steps) && i <= j <= |steps| && Gone(run[i], d)
    ensures Gone(run[j], d)
    decreases j
  {
    if i < j {
      GoneForever(c, run, steps, i, j - 1, d);
      NextKeepsGone(c, run, steps, j - 1, d);
    }
  }

  lemma NoKey(sources: map<string, Bytes>, tenant: Id, d: Id, filename: string)
    requires IsUuid(tenant) && IsUuid(d) && Unclaimed(sources, d)
    ensures SourceKey(tenant, d, filename) !in sources
  {
    PrefixNamesOwner(tenant, d, SourceKey(tenant, d, filename));
  }

  lemma NoRows(s: State, d: Id)
    requires Gone(s, d) && Lineage(View(s.db))
    ensures forall v :: v in s.db.versions ==> s.db.versions[v].documentId != d
    ensures forall r :: 0 <= r < |s.db.outbox| ==> s.db.outbox[r].event.documentId != d
  {
    var f := View(s.db);
    forall v | v in s.db.versions ensures s.db.versions[v].documentId != d {
      assert v in f.versions;
    }
    forall r | 0 <= r < |s.db.outbox| ensures s.db.outbox[r].event.documentId != d {
      assert f.events[r] == s.db.outbox[r].event;
      DocumentExists(f, r);
    }
  }

  /** After the compensating delete of a request that was refused or could not be recorded, no state of any run holds an
      object, a document, a version or an event of its document id. */
  lemma RefusedLeavesNothing(c: Config, run: seq<State>, steps: seq<Step>, i: nat, j: nat, d: Id)
    requires IsRun(c, run, steps) && i < j <= |steps| && steps[i] == Requesting(DeleteObject(d))
    ensures forall tenant, filename :: IsUuid(tenant) ==> SourceKey(tenant, d, filename) !in run[j].sources
    ensures forall x :: x in run[j].db.documents ==> x.1 != d
    ensures forall v :: v in run[j].db.versions ==> run[j].db.versions[v].documentId != d
    ensures forall r :: 0 <= r < |run[j].db.outbox| ==> run[j].db.outbox[r].event.documentId != d
  {
    DeletedAt(c, run, steps, i, d);
    GoneForever(c, run, steps, i + 1, j, d);
    TablesAreSound(c, run, steps, j);
    NoRows(run[j], d);
    forall tenant, filename | IsUuid(tenant) ensures SourceKey(tenant, d, filename) !in run[j].sources {
      NoKey(run[j].sources, tenant, d, filename);
    }
  }
}
