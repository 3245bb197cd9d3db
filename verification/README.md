# A verified model of the ingestion pipeline

The pipeline takes a document through four stages: the API stores its bytes and commits a submission, a publisher
carries outbox rows to Kafka, the document fetcher inspects the stored bytes, and the content extractor converts
them and stores two artifacts. Everything between the stages goes through one transactional outbox. This project
models those stages with their tables, object stores, topics and offsets, and proves what holds of every run in
which their steps interleave in any order, crash anywhere and see records again.

`dafny verify dfyconfig.toml` checks all of it.

## How it is built

| file | what it holds |
|---|---|
| `Basics`, `Domain` | shared arithmetic and text; events, errors, topics and the five event builders |
| `Outbox`, `OutboxProgress` | the outbox table with its claim and complete functions; waiting bound and backoff |
| `Relay` | any number of publishers, their producer queues and the Kafka log, step by step |
| `Publishing`, `Contracts` | `publish_batch` as imperative code whose every statement is a step of `Relay`; the schema lookup and its cache |
| `Ledger`, `Transactions`, `Repository` | the four database transactions as functions on the tables; what they write, column by column, and when they raise; the same as statements on mutable tables with rollback |
| `Provenance` | causal chain, conservation, and the status columns as a function of the stored events |
| `Streams`, `JsonTree`, `SourceKeys` | the three streaming loops, artifact cleaning, object keys and URIs |
| `Consumption`, `ExtractorSlots` | polls, commits and offsets; in-flight tasks, pause and resume, the converter pool, and what the loop commits |
| `Stores`, `Submission`, `Workers` | object stores, `submit_document`, both `handle` methods and the fetcher's main loop as imperative code |
| `Pipeline` | all of it as one state machine |
| `PipelineInvariant`, `PipelineSteps` | its invariant, and why every step keeps it |
| `Guarantees`, `OutboxGuarantees`, `ArtifactContents`, `Origins`, `Refusals`, `Unreadable` | what follows for every state of every run |
| `Reachability`, `FetcherProgress`, `Ingestion`, `Samples` | how a run can go on: each step as a lemma, one record past the fetcher's offset, one document's whole way through the pipeline, and sample documents |
| `LimitsExact`, `ManifestExact`, `OffsetsExact`, `BoundExact`, `Stranding` | laws of runs as if-and-only-ifs, with the runs in which they fail |

The imperative parts are proved against the functions that the state machine is made of, and `publish_batch` against
the steps of the state machine itself, so the theorems about runs are about what that code does.

## What is assumed

- A database transaction is one atomic step: it commits and returns, or rolls back and raises. Row timestamps are
  those of the commit, and a claim finds no row locked by a transaction in progress.
- One clock is shared by all processes and strictly increases from step to step.
- `uuid4` never draws a document id twice. All other ids may collide; the unique constraints then decide.
- SHA-256 and pypdf are arbitrary functions of the whole byte sequence. A conversion may have any result.
- A paused consumer polls nothing, and its partition assignment is not empty.
- `flush` returns zero only if every record of the producer was delivered: no delivery callback is registered, so
  this is a matter of the client library. A record that a flush leaves behind may still be delivered later.
- Source objects change only through the API, and artifacts only through the extractor.
- In the imperative parts every store, broker or database call may fail, and so may the reading of any chunk of a
  body; a ghost counter `faults` records each failure, so that contracts can say what happens when nothing fails.

## What the proofs showed about the code

- The waiting bound needs failed completions to commit no later than the retry time that they write
  (`OvertakingCondition`). Committing within two seconds of the failure, the first retry delay, is enough, and no larger
  limit is, for the table alone (`OutboxProgress.BoundIffWithinTwoSeconds`) and for the whole pipeline
  (`BoundExact.BoundIffWithinTwoSeconds`), each with a run that misses the bound. Nothing in the publisher enforces the
  limit.
- The 300 second cap of the retry delay never binds: the exponent is capped at 8.
- Extractor commits follow completion order, so offsets are safe exactly with one slot, in the loop alone
  (`SafeIffOneSlot`) and in the whole pipeline (`OffsetsSafeIffOneSlot`). The committed default is one.
- A comment at content_extractor.py:76 takes retried events to write the same artifacts. That needs a converter whose
  answer depends on the bytes alone (`StoredPairIsCommitted`); a manifest keeps saying what its row says exactly when
  all answers for the same bytes lead to one status (`ManifestsAgreeIff`). The artifacts are written before the key is
  claimed, so a second handler of a record replaces them even if its `complete` then returns False.
- The inspector looks for the signature in its first read alone. A read of fewer than five bytes rejects any document
  (`VerdictIff`); with longer ones each stored outcome is the verdict on the document (`FetchOutcomeIsVerdict`).
- `needs_review` stores ContentExtracted and still sets the document to `failed`.
- A row left in `publishing` by a publisher that died is never claimed again (`StrandedForever`, with the run in
  `DeathStrands`). Exactly the `publishing` rows on the worklist of a live publisher can still move (`SettledIffListed`).
- A file name with `?`, `#`, a tab, CR or LF makes `get` ask for a different key of the same document. No object can
  be under it, so the handler raises, and raises again on each redelivery, instead of rejecting the document: it stays
  `submitted`, and its partition is never committed past its record (`StaysSubmitted`).
- The second condition of `SizeRejectionIff`, that the first read can hold a signature, is met by every fetcher limit
  that can be configured: config/settings.py:41 requires at least 1 MiB. It is there because the loop itself takes any
  limit.
- The docstring at content_extractor.py:90 promises that embedded image bytes are never persisted. Values are dropped by
  key name, so that holds exactly when no such object lies on a path of permitted names (`NoBytesIff`); under any other
  name bytes are kept as text (`BytesAreKept`).

## Model

| member | source | states |
|---|---|---|
| `Guarantees.SubmittedRecordsAreKnown` | src/rag_ingestion/workers/document_fetcher.py:153-188 | every record of document.submitted is a DocumentSubmitted event whose payload selects exactly one live version: `unexpected_event_type` and `unknown_source_object` never fire |
| `Guarantees.TopicsTellTypes` | src/rag_ingestion/workers/document_fetcher.py:305 | in every state of every run each outbox row and each record of the log is on the topic of its own event type, and on no other: rejections of the fetcher in document-fetcher's dead letter topic, those of the extractor in content-extractor's |
| `Guarantees.FetchedRecordsAreValid` | src/rag_ingestion/workers/document_fetcher.py:247-258 | every record of document.fetched is a DocumentFetched event, `valid`, application/pdf, naming a live version row with the same sha256, size and URI |
| `Guarantees.ExtractorGuardsNeverFire` | src/rag_ingestion/workers/content_extractor.py:348-358 | on such a record the extractor can only end in its size limit or a failure of the converter: not in `unexpected_event_type`, `unsupported_source`, `empty_source` or `source_checksum_mismatch` |
| `Guarantees.VersionIsNeverUnknown` | src/rag_ingestion/workers/content_extractor.py:246-252 | on such a record `complete` never raises `unknown_document_version` |
| `Guarantees.ExactlyOnceEffect` | src/rag_ingestion/workers/content_extractor.py:234-306 | in every reachable state a (tenant, event, consumer) key is in processed_events iff an outbox row is its effect, and never two rows are |
| `Guarantees.ConservationInRuns` | src/rag_ingestion/infrastructure/document_submission.py:87-161 | a committed document has exactly one DocumentSubmitted row, at most one fetch outcome, at most one extract outcome, and the latter only next to a DocumentFetched row |
| `Guarantees.ExtractedIffSucceeded` | src/rag_ingestion/workers/content_extractor.py:254-265 | a document is `extracted` iff its version's extraction_status is `succeeded` iff the ContentExtracted row with that status exists |
| `Guarantees.LifecycleForward` | src/rag_ingestion/workers/document_fetcher.py:200-246 | over any stretch of any run a document never disappears and its status never moves back |
| `Guarantees.CausalChainInRuns` | src/rag_ingestion/domain/events/document_submitted.py:22-34 | from any outbox row causation_id leads in at most two hops to a DocumentSubmitted row, whose event id is the correlation id of the whole chain; tenant and document are constant along it |
| `Guarantees.SourceIntegrity` | src/rag_ingestion/interfaces/api.py:133-209 | each committed version names a stored object, under its own tenant and document, with the row's sha256 and byte_size, crashes included |
| `Guarantees.DeleteSparesVersions` | src/rag_ingestion/interfaces/api.py:197-209 | a compensating delete never removes an object that a committed row references |
| `Refusals.RefusedLeavesNothing` | src/rag_ingestion/interfaces/api.py:197-209 | after the compensating delete of a request no later state of any run holds an object, a document, a version or an event of its document id |
| `Guarantees.SourceIsImmutable` | src/rag_ingestion/infrastructure/document_submission.py:44-54 | from its commit on, a version's source columns and the bytes it names never change |
| `Guarantees.GetReturnsSubmittedBytes` | src/rag_ingestion/infrastructure/document_submission.py:56-62 | `get` of a committed version returns exactly the submitted bytes or raises, and raises iff the file name has a character that breaks the URI |
| `Guarantees.FetchRejections` | src/rag_ingestion/workers/document_fetcher.py:74-104 | the only rejections the fetcher ever stores, and what each says of the version's own bytes: `encrypted_pdf_unsupported` only for a signed PDF within the limit that the parser finds encrypted, `corrupt_pdf` only for one it cannot read, `document_too_large` only above the limit (and if the API accepts more), the declared type only for one that passes |
| `Guarantees.ExtractionRejections` | src/rag_ingestion/workers/content_extractor.py:185-200 | the only rejections the extractor ever stores; size iff the bytes exceed its limit, which takes two larger limits before it |
| `Origins.FetchOutcomeIsVerdict` | src/rag_ingestion/workers/document_fetcher.py:74-104 | in runs in which no first read falls short of a signature, the stored outcome of every fetch is the verdict on the bytes and declared type of the version: DocumentFetched, with their digest and size, iff they are a signed PDF within the limit that the parser reads and of a permitted type, and else the one rejection that says what they are |
| `Origins.ExtractOutcomeIsAnswer` | src/rag_ingestion/workers/content_extractor.py:139-216 | the stored outcome of every extraction follows from an answer that the converter may have given to the bytes of the version: too large, `docling_conversion_failed` iff it could not convert them, `invalid_docling_output` iff it found no document, else ContentExtracted, `needs_review` iff the markdown is blank |
| `Origins.OriginsInRuns` | src/rag_ingestion/workers/document_fetcher.py:348-362 | in every state of every run each handler under way, and each stored outcome, goes back to an earlier step in which a handler of the same document or version read its source and came to just that |
| `Guarantees.LimitsCompose` | src/rag_ingestion/interfaces/api.py:136-152 | with api_max <= fetcher_max <= extraction_max no run stores a size, emptiness or checksum rejection in either stage, for any file name |
| `LimitsExact.SizeRejectionIff` | src/rag_ingestion/workers/document_fetcher.py:74-91 | `document_too_large` is stored in some run iff api_max > fetcher_max and the first read can hold a signature, with a run for every such pair of limits |
| `LimitsExact.SourceTooLargeIff` | src/rag_ingestion/workers/content_extractor.py:185-200 | `source_too_large` is stored in some run iff a document above the extractor's limit can pass the API and the fetcher; the run goes through the whole pipeline |
| `Guarantees.WriteBeforeReference` | src/rag_ingestion/workers/content_extractor.py:362-367 | a version row with normalized_object_uri set has both artifacts in the bucket, under its own tenant, version and sha prefix |
| `Guarantees.ArtifactsAreNotShared` | src/rag_ingestion/workers/content_extractor.py:363-366 | no two version rows can write or reference the same artifact |
| `ArtifactContents.StoredIsClean` | src/rag_ingestion/workers/content_extractor.py:362-367 | whatever the converter answers, every object in the artifact bucket is, in every state, the normalized document or the manifest of a committed version that passed the fetcher: without a forbidden key at any depth, or naming that version's digest |
| `ArtifactContents.StoredEvidence` | src/rag_ingestion/workers/content_extractor.py:198-225 | every object in the artifact bucket, in every state, is one of the two of an answer that the converter may have given for the bytes of a committed version: under `normalized.json` exactly the evidence of its document, at every path, without a forbidden key, with its markdown; under `manifest.json` that version's digest and the status that follows from the markdown |
| `ArtifactContents.StoredPairIsCommitted` | src/rag_ingestion/workers/content_extractor.py:75-79 | if the converter is a function of the bytes, then in every state the row, the normalized object and the manifest of a converted version all come from its one answer to that version's own bytes: all of its evidence and its markdown, and `needs_review` iff the markdown is blank, however often records were redelivered |
| `ManifestExact.ManifestsAgreeIff` | src/rag_ingestion/workers/content_extractor.py:362-369 | the stored manifest of every converted version says in every state what its row says iff all answers that the converter may give for the same bytes lead to the same status |
| `ManifestExact.LaterManifestWins` | src/rag_ingestion/workers/content_extractor.py:362-369 | a run in which the row is committed with one status and a second handler then replaces both objects by those of another |
| `Guarantees.FetcherOffsetsAreSafe` | src/rag_ingestion/workers/document_fetcher.py:390-415 | every record below the fetcher's committed offset is in processed_events, across crashes, restarts and redelivery |
| `FetcherProgress.FetcherAdvances` | src/rag_ingestion/workers/document_fetcher.py:390-415 | from any reached state the fetcher can restart, poll the next uncommitted record of a partition, process it and commit just past it, whether it was processed before or not, if its source can be read |
| `Guarantees.ExtractorOffsetsAreSafe` | src/rag_ingestion/workers/content_extractor.py:411-441 | the same for the extractor when it has one slot |
| `OffsetsExact.OffsetsSafeIffOneSlot` | src/rag_ingestion/workers/content_extractor.py:411-441 | in runs of the whole pipeline the extractor's committed offsets are always safe iff it has one slot, or no document can pass the fetcher at all; the failing run carries two documents through all stages |
| `Ingestion.CarriesThrough` | src/rag_ingestion/workers/document_fetcher.py:331-362 | from any state that any run reaches, whatever is under way in it, a request that violates no constraint, for a PDF that passes the fetcher under a file name that leaves the URI whole, can be carried through all stages to its conversion with any result that the converter may give; nothing else changes but that waiting outbox rows are published |
| `Ingestion.Ingests` | src/rag_ingestion/workers/document_fetcher.py:331-362 | the part up to the extractor's topic when no outbox row waits (each is held or published), with the exact tables and log that it leaves |
| `Reachability.DrainReaches` | src/rag_ingestion/workers/outbox_publisher.py:40-77 | from any reached state new publishers can publish every outbox row that waits, each with its record in the log, and leave everything else as it is |
| `Unreadable.StaysSubmitted` | src/rag_ingestion/infrastructure/document_submission.py:56-62 | a document whose file name breaks its URI is `submitted` in every state of every run, has no event but its submission, and no committed offset of the fetcher covers its record |
| `Unreadable.BrokenNameReaches` | src/rag_ingestion/interfaces/api.py:121-216 | such a document is accepted by the API, and its record gets into the log, in some run |
| `OutboxGuarantees.PublishedMeansDelivered` | src/rag_ingestion/workers/outbox_publisher.py:97-105 | every `published` row has its record in the Kafka log on its own topic; a row is never produced more often than its attempt_count |
| `OutboxGuarantees.PublishedForever` | migrations/002_database_roles_and_privileges.sql:87-96 | a published row never changes again |
| `OutboxGuarantees.ClaimsAreExclusive` | migrations/002_database_roles_and_privileges.sql:57-70 | for any number of publishers, even of one name: no row is on two worklists or twice on one, `publishing` iff locked_by is set, and the row a publisher completes is always its own |
| `OutboxGuarantees.NormalReturnReleasesAll` | src/rag_ingestion/workers/outbox_publisher.py:50-77 | a publish_batch that has returned normally left none of its rows in `publishing` under its claim, whatever other publishers do |
| `OutboxGuarantees.WaitingBoundInRuns` | migrations/002_database_roles_and_privileges.sql:57-70 | in any run of the whole pipeline a claimable row with k rows before it is taken within k/b + 1 claims of at least b rows, if failed completions commit no later than the retry time they write |
| `OutboxGuarantees.TwoSecondsArePrompt` | src/rag_ingestion/workers/outbox_publisher.py:63-73 | in any run a failed completion that commits within two seconds of its failure commits no later than the retry time it writes |
| `BoundExact.BoundIffWithinTwoSeconds` | src/rag_ingestion/workers/outbox_publisher.py:63-73 | in runs of the whole pipeline in which failed completions commit at most L after the failure, the waiting bound always holds iff L <= 2 s; for any larger L a publisher stalls between its failure and its completion while a second document is submitted, and the next claim passes that one over |
| `Stranding.SettledIffListed` | migrations/002_database_roles_and_privileges.sql:57-70 | in any reached state a `publishing` row can be published or failed by some continuation iff it is on the worklist of a live publisher |
| `Stranding.StrandedForever` | migrations/002_database_roles_and_privileges.sql:57-70 | a `publishing` row on no live worklist is unchanged in every later state of any run |
| `Stranding.DeathStrands` | src/rag_ingestion/workers/outbox_publisher.py:40-77 | a run in which a publisher dies between its claim and its completion and leaves such a row |
| `OutboxGuarantees.BackoffInRuns` | src/rag_ingestion/workers/outbox_publisher.py:63-65 | in any run attempt_count is the number of claims, and the n-th claim comes at least 2^n - 2 seconds (n <= 9) or 510 + 256(n - 9) seconds (n >= 9) after the first |
| `Outbox.OutboxTable.ClaimOutboxEvents` | migrations/002_database_roles_and_privileges.sql:45-72 | raises iff the batch size is outside 1..1000; else returns a front-most set of claimable rows and locks exactly those |
| `Outbox.OutboxTable.CompleteOutboxEvent` | migrations/002_database_roles_and_privileges.sql:74-102 | succeeds iff the row is publishing and held by the worker, and then rewrites exactly that row |
| `OutboxProgress.QueueShrinks` | migrations/002_database_roles_and_privileges.sql:57-70 | no insert, timely completion or passage of time puts a row before a waiting one, and a claim that passes it over takes a full batch of those before it |
| `OutboxProgress.WaitingBound` | migrations/002_database_roles_and_privileges.sql:57-70 | the waiting bound for the outbox table alone |
| `OutboxProgress.OvertakingCondition` | src/rag_ingestion/workers/outbox_publisher.py:63-73 | a failed completion lands behind every row that already waits iff it commits no later than the retry time it writes |
| `OutboxProgress.BoundIffWithinTwoSeconds` | src/rag_ingestion/workers/outbox_publisher.py:63-73 | the waiting bound holds in every run from the empty table in which failed completions commit at most L after the failure, iff L <= 2 s; for any larger L a run that starts with the insert and the claim of the stalled row misses it |
| `OutboxProgress.ClaimHistory` | migrations/002_database_roles_and_privileges.sql:65-70 | what the columns of a row say about its past claims |
| `OutboxProgress.DelayIsUncapped` | src/rag_ingestion/workers/outbox_publisher.py:63-65 | every retry delay is 2^min(k, 8): the 300 second cap never binds |
| `OutboxProgress.RetryTimes` | src/rag_ingestion/workers/outbox_publisher.py:63-65 | the retry time in microseconds after each number of attempts: 2, 4, ... 128 seconds, and 256 from the eighth on |
| `OutboxProgress.BackoffClosedForm` | src/rag_ingestion/workers/outbox_publisher.py:63-65 | the sum of the delays in closed form |
| `OutboxProgress.BackoffBound` | src/rag_ingestion/workers/outbox_publisher.py:63-65 | the backoff of the claims of one row in any run of the table |
| `Relay.StepKeepsInv` | src/rag_ingestion/workers/outbox_publisher.py:40-77 | claim exclusivity and delivery are kept by every step of any number of publishers, their deaths included |
| `Relay.CompletionIsAlwaysAccepted` | migrations/002_database_roles_and_privileges.sql:98-100 | the 'not claimed by worker' exception is unreachable |
| `Relay.BatchIsOver` | src/rag_ingestion/workers/outbox_publisher.py:50-77 | an emptied worklist leaves no row of its batch in `publishing` under that claim |
| `Relay.SendsBoundedByAttempts` | src/rag_ingestion/workers/outbox_publisher.py:97-105 | at most one `produce` for each attempt of a row, also when a flush times out and the record is delivered later |
| `Relay.StepsAreTableSteps` | migrations/002_database_roles_and_privileges.sql:45-102 | every step of the publishers is a step of the outbox table |
| `Publishing.OutboxPublisher.Claim` | src/rag_ingestion/workers/outbox_publisher.py:43-48 | the claimed rows with their raised attempt counts; or the range error, or a failed claim that is rolled back, with nothing changed |
| `Publishing.OutboxPublisher.Flush` | src/rag_ingestion/workers/outbox_publisher.py:103-104 | zero outstanding iff nothing of this producer is left in its queue |
| `Publishing.OutboxPublisher.PublishEvent` | src/rag_ingestion/workers/outbox_publisher.py:79-105 | ends delivered, and then encoded with the contract of the row's own event type, or in the except clause, and the latter only by a fault of encoder or broker |
| `Publishing.OutboxPublisher.CompleteEvent` | src/rag_ingestion/workers/outbox_publisher.py:133-156 | rewrites exactly the one row, or raises with everything rolled back; never 'not claimed by worker' |
| `Publishing.OutboxPublisher.Handle` | src/rag_ingestion/workers/outbox_publisher.py:50-74 | one claimed row is settled: published, or failed with a retry time computed after the failure; or the completion of the failure fails as well, and the row is still `publishing` and held |
| `Publishing.OutboxPublisher.HandleAll` | src/rag_ingestion/workers/outbox_publisher.py:50-74 | all claimed rows are settled and no other row has changed, unless the completion of a failure fails as well |
| `Publishing.OutboxPublisher.PublishBatch` | src/rag_ingestion/workers/outbox_publisher.py:40-77 | the whole batch, as a path of the publishers' state machine from a sound state; on a normal return every claimed row is settled, the others are untouched, and what is published is in the log; without a fault all are published. It raises only for the batch range, for a claim that fails and is rolled back, or for a failure whose completion fails too |
| `Publishing.NormalReturn` | src/rag_ingestion/workers/outbox_publisher.py:61-77 | a settled batch has no row in `publishing` or locked, one more attempt on each, and retries no sooner than the backoff allows |
| `Contracts.SerializerCache.Serializer` | src/rag_ingestion/workers/outbox_publisher.py:119-131 | the schema file of each of the five contracts, by name, whatever is cached; any other contract raises and caches nothing |
| `Contracts.PipelineEventsHaveContracts` | src/rag_ingestion/workers/outbox_publisher.py:107-117 | every pipeline event is serialized with the checked-in schema of its own type, by file name |
| `Contracts.ResolvedMetadata` | src/rag_ingestion/workers/outbox_publisher.py:107-117 | namespace and name of a contract come from the current column, else from the former one, else the default namespace; empty text counts as none, and a row without a name raises |
| `Publishing.OutboxPublisher.Encode` | src/rag_ingestion/workers/outbox_publisher.py:79-100 | what is produced for a row was encoded with the schema file of that row's own event type, or encoding raises |
| `Ledger.FetchHasOneEffect` | src/rag_ingestion/workers/document_fetcher.py:134-314 | a fetch transaction changes nothing for a duplicate, else records one key together with its one outcome event |
| `Ledger.FinishHasOneEffect` | src/rag_ingestion/workers/content_extractor.py:234-306 | the same for complete and reject, also when complete raises, is rolled back and falls through to reject |
| `Ledger.ExactlyOnceInAnyRun` | src/rag_ingestion/workers/content_extractor.py:234-306 | exactly-once effect survives any sequence of transactions on arbitrary payloads, duplicated, foreign or malformed |
| `Ledger.SubmissionKeepsExactlyOnce` | src/rag_ingestion/infrastructure/document_submission.py:87-161 | a submission adds no effect |
| `Transactions.FetchIsWritten` | src/rag_ingestion/workers/document_fetcher.py:134-314 | column by column what a fetch writes on any payload with any arguments: an unknown source rejects and touches no row; a digest that differs is reported before any other error, the declared type only if nothing else is wrong; a rejection sets `invalid` and `failed`, a success the inspected facts; one claimable outbox row, caused by the payload, on the topic of its type |
| `Transactions.FetchCommitsIff` | src/rag_ingestion/workers/document_fetcher.py:134-222 | exactly when the fetch transaction commits and when it raises |
| `Transactions.CompleteIsWritten` | src/rag_ingestion/workers/content_extractor.py:234-281 | column by column what complete writes, and that it raises `unknown_document_version` exactly if no live version has the payload's document and digest |
| `Transactions.RejectIsWritten` | src/rag_ingestion/workers/content_extractor.py:283-306 | column by column what reject writes, also for a version that does not exist |
| `Transactions.FinishIsWritten` | src/rag_ingestion/workers/content_extractor.py:367-369 | a converted document is completed if its version is known and rejected as unknown if not; a failed one is rejected with its own error |
| `Transactions.CompleteCommitsIff` | src/rag_ingestion/workers/content_extractor.py:234-306 | exactly when complete and reject commit |
| `Transactions.FinishCommitsIff` | src/rag_ingestion/workers/content_extractor.py:367-369 | the end of handle commits whether or not the version is known: an ExtractionError of complete is never the end of it |
| `Transactions.RootOfChain` | src/rag_ingestion/domain/events/document_submitted.py:22-34 | a submission begins its own correlation chain, or joins the one it is given |
| `Provenance.SubmissionKeepsLineage` | src/rag_ingestion/infrastructure/document_submission.py:87-161 | a submission keeps the lineage of all documents and their status columns |
| `Provenance.SourceIsKnown` | src/rag_ingestion/workers/document_fetcher.py:153-177 | the submitted payload selects exactly the version committed with it |
| `Provenance.FetchAdvances` | src/rag_ingestion/workers/document_fetcher.py:176-278 | on a pipeline record the fetch transaction moves one document by one outcome, decided by the checksum and the declared type alone |
| `Provenance.FetchKeepsLineage` | src/rag_ingestion/workers/document_fetcher.py:188-314 | a fetch keeps lineage and statuses and moves its document forward |
| `Provenance.FinishAdvances` | src/rag_ingestion/workers/content_extractor.py:246-306 | on a pipeline record the extract transaction moves one document by the outcome it was given |
| `Provenance.FinishKeepsLineage` | src/rag_ingestion/workers/content_extractor.py:234-306 | an extraction keeps lineage and statuses and moves its document forward |
| `Provenance.StatusIsFunctionOfEvents` | src/rag_ingestion/workers/content_extractor.py:254-265 | document status, inspection status, extraction status and artifact references are determined by which events of the document exist; needs_review stores ContentExtracted and leaves the document `failed` |
| `Provenance.Conservation` | src/rag_ingestion/workers/document_fetcher.py:188-278 | one root, at most one fetch and one extract outcome per document |
| `Provenance.CausalChain` | src/rag_ingestion/domain/events/content_extracted.py:19-45 | the chain from any event back to its submission |
| `Repository.Database.CreateSubmission` | src/rag_ingestion/infrastructure/document_submission.py:87-161 | the statements one by one leave the tables as one atomic submission, or as they were on a constraint violation or any other failure |
| `Repository.Database.Process` | src/rag_ingestion/workers/document_fetcher.py:134-278 | the statements of the fetch transaction write exactly what `FetchWrites` says, column by column, with DocumentFetched on its own topic and a rejection on the fetcher's dead letter topic, or the database fails and everything is rolled back |
| `Repository.Database.Complete` | src/rag_ingestion/workers/content_extractor.py:234-281 | the statements of complete write exactly what `CompleteWrites` says, on the topic of ContentExtracted, an ExtractionError rolling them back, or the database fails and everything is rolled back |
| `Repository.Database.Reject` | src/rag_ingestion/workers/content_extractor.py:283-306 | the statements of reject write exactly what `RejectWrites` says, on the extractor's dead letter topic, or the database fails and everything is rolled back |
| `Repository.Database.Finish` | src/rag_ingestion/workers/content_extractor.py:367-369 | complete, and reject after an ExtractionError of complete, with what each writes; a failure of the database in either leaves the tables as they were |
| `Consumption.OneSlotIsSafe` | src/rag_ingestion/workers/document_fetcher.py:390-415 | with one record in flight every record below the committed offset is handled, in any run with crashes and redelivery |
| `Consumption.RestartResumes` | src/rag_ingestion/workers/content_extractor.py:393-402 | after a restart a partition is read on from its committed offset, in order: the next record is the first that is not committed |
| `Consumption.TwoSlotsAreUnsafe` | src/rag_ingestion/workers/content_extractor.py:412-417 | with two or more slots a run commits past a record that was never handled and then loses it |
| `Consumption.SafeIffOneSlot` | src/rag_ingestion/workers/content_extractor.py:411-441 | committed offsets are safe in every run iff there is one slot |
| `ExtractorSlots.PoolIsConserved` | src/rag_ingestion/workers/content_extractor.py:330-361 | free plus held converters is always the initial set |
| `ExtractorSlots.StartedNeverWaits` | src/rag_ingestion/workers/content_extractor.py:353 | a started handle always finds a converter |
| `ExtractorSlots.ExtractorLoop.Warm` | src/rag_ingestion/workers/content_extractor.py:334-343 | warming takes every converter out once and puts them back in order |
| `ExtractorSlots.ExtractorLoop.Sweep` | src/rag_ingestion/workers/content_extractor.py:412-422 | commits exactly the records of tasks that ended with a result, keeps the others, and resumes only with a free slot; a task that ended with an exception ends the process |
| `ExtractorSlots.ExtractorLoop.Deliver` | src/rag_ingestion/workers/content_extractor.py:436-441 | adds one task and pauses exactly when the last slot is taken; a consumer that is not paused always has a free slot |
| `ExtractorSlots.ExtractorLoop.Take` | src/rag_ingestion/workers/content_extractor.py:353 | returns at once with the first free converter, which no other task holds |
| `ExtractorSlots.ExtractorLoop.Release` | src/rag_ingestion/workers/content_extractor.py:359-361 | puts the task's own converter back |
| `ExtractorSlots.ExtractorLoop.Run` | src/rag_ingestion/workers/content_extractor.py:410-441 | for any scheduling of the tasks, exceptions included: at every poll at most one task per slot is in flight, the consumer is paused iff all slots are taken, and the pool is intact; with one converter the committed offsets are safe however the loop ends, also after a restart |
| `Streams.InspectPdf` | src/rag_ingestion/workers/document_fetcher.py:58-104 | the loop gives the verdict on the whole content for any chunking, consumes at most max + 1 bytes and never reads a non-positive length; the declared type is refused first, and only if it is none of three; encrypted, corrupt and inspected mean what the parser says; a chunk that cannot be read raises |
| `Streams.ShortReadsHarmless` | src/rag_ingestion/workers/document_fetcher.py:74-76 | the verdict does not depend on the first read iff that read covers the signature or everything, or there is no signature |
| `Streams.VerdictIff` | src/rag_ingestion/workers/document_fetcher.py:74-104 | what each of the six verdicts means, as an iff: signature in the first read, size, and what the parser makes of the bytes; an inspected document is reported with its type, digest, size and page count |
| `Streams.PassesIff` | src/rag_ingestion/workers/document_fetcher.py:74-104 | with such a first read a document reaches the parser iff it starts with the signature and is within the limit, and is reported with its full length and digest |
| `Streams.ExtractPdf` | src/rag_ingestion/workers/content_extractor.py:174-225 | the loop extracts from exactly the whole content, for any chunking, and stops within one chunk of the limit; what it returns holds all evidence of the converted document and nothing else, its markdown and the status that follows; a chunk that cannot be read raises |
| `Streams.OutcomeIff` | src/rag_ingestion/workers/content_extractor.py:181-200 | what each outcome of an extraction means, as an iff: size, what the converter says, and then the digest |
| `Streams.ExtractedIsFaithful` | src/rag_ingestion/workers/content_extractor.py:198-225 | what is extracted holds, at every path, what the converted document holds there and no more, keeps its markdown, has no forbidden key, comes from the expected bytes, and needs review iff the markdown is blank |
| `Streams.BlankIff` | src/rag_ingestion/workers/content_extractor.py:203-211 | markdown is blank iff each of its characters is one of the 29 code points that `strip` removes |
| `Streams.ReceiveUpload` | src/rag_ingestion/interfaces/api.py:133-152 | the upload is buffered whole iff it is within the limit; at most one chunk more is read; a chunk that cannot be read raises |
| `JsonTree.ResultIsClean` | src/rag_ingestion/workers/content_extractor.py:89-102 | no forbidden key survives at any depth and only JSON types remain |
| `JsonTree.ForbiddenNames` | src/rag_ingestion/workers/content_extractor.py:96 | the forbidden names are the six, in any case |
| `JsonTree.ResultItemsAreClean` | src/rag_ingestion/workers/content_extractor.py:98-99 | a list keeps its items in number and order, each cleaned |
| `JsonTree.FixedIffClean` | src/rag_ingestion/workers/content_extractor.py:89-102 | the trees left unchanged are exactly the clean ones |
| `JsonTree.Idempotent` | src/rag_ingestion/workers/content_extractor.py:89-102 | cleaning twice is cleaning once |
| `JsonTree.EvidenceIsKept` | src/rag_ingestion/workers/content_extractor.py:92-97 | under every permitted name a cleaned dictionary holds the cleaned last value of that name, and nothing under a forbidden one |
| `JsonTree.NamesKeepTheirPlace` | src/rag_ingestion/workers/content_extractor.py:92-97 | the names of a cleaned dictionary are the permitted ones in the order in which they first occur |
| `JsonTree.EvidenceAtAnyDepth` | src/rag_ingestion/workers/content_extractor.py:89-102 | at the end of every path of names and list indices the result holds the cleaned value that the document holds there, and nothing where a name on the path is forbidden |
| `JsonTree.ResultHoldsEvidence` | src/rag_ingestion/workers/content_extractor.py:89-102 | the result holds at every path of permitted names exactly the text, number, boolean, null, dictionary or list that the document holds there, and nothing anywhere else |
| `JsonTree.TextIsKeptIff` | src/rag_ingestion/workers/content_extractor.py:89-102 | a text is in the result at a path iff the document holds there that text, or an object that is not JSON and prints as that text, with no forbidden name on the path |
| `JsonTree.BytesAreKept` | src/rag_ingestion/workers/content_extractor.py:90-102 | bytes under any name that is not forbidden are kept as text: an input for which the docstring's promise fails |
| `JsonTree.NoBytesIff` | src/rag_ingestion/workers/content_extractor.py:90-102 | that promise is kept for exactly the documents in which no object that is not JSON lies on a path of permitted names |
| `JsonTree.FigureEvidence` | src/rag_ingestion/workers/content_extractor.py:105-123 | one anchor for each dictionary among the pictures, in order, with its own index, the text of `self_ref`, and cleaned `captions` and `prov` |
| `JsonTree.GetOrIsGet` | src/rag_ingestion/workers/content_extractor.py:108-120 | `get` with a default gives the value of the one entry of that name, or the default |
| `SourceKeys.UriRoundTrip` | src/rag_ingestion/infrastructure/document_submission.py:44-62 | `get` asks for exactly the key `put` stored iff the file name has no ?, #, tab, CR or LF |
| `SourceKeys.KeyOfUriIff` | src/rag_ingestion/infrastructure/document_submission.py:59-62 | for any URI at all: `get` asks for a key iff the URI, without leading control characters and without tabs and line ends, is an s3 URL of its own bucket, in any case of the scheme, with that key after the slashes and before the query or fragment |
| `SourceKeys.RecoveredKeyStaysInDocument` | src/rag_ingestion/infrastructure/document_submission.py:56-62 | whatever the file name, `get` stays under the prefix of the same tenant and document |
| `SourceKeys.ForeignBucketIsRefused` | src/rag_ingestion/infrastructure/document_submission.py:59-61 | a URI of another bucket is refused |
| `SourceKeys.SourceKeyInjective` | src/rag_ingestion/infrastructure/document_submission.py:170-174 | keys of distinct (tenant, document) pairs differ |
| `SourceKeys.SourceKeyLayout` | src/rag_ingestion/infrastructure/document_submission.py:170-174 | the key is tenant, document and the file name with every slash and backslash replaced by an underscore and nothing else, or `upload` for an empty name |
| `SourceKeys.ArtifactKeysDisjoint` | src/rag_ingestion/workers/content_extractor.py:363-366 | distinct (tenant, version, sha) triples never share an artifact key, and normalized and manifest keys never coincide |
| `Stores.SourceStore.Put` | src/rag_ingestion/infrastructure/document_submission.py:44-51 | stores the object under its key and returns its URI, or raises with the object there or not |
| `Stores.SourceStore.Get` | src/rag_ingestion/infrastructure/document_submission.py:56-62 | streams the object under the recovered key of its own bucket, or raises |
| `Stores.ArtifactStore.PutJson` | src/rag_ingestion/workers/content_extractor.py:75-79 | stores the given value under exactly the given key, or raises with it there or not |
| `Submission.SubmissionApi.SubmitDocument` | src/rag_ingestion/interfaces/api.py:121-216 | 422 iff no file name, 413 only if too large, and then unless the body cannot be read; 201 leaves exactly the rows that the form, the body and the stored object ask for, with the given external id or else the document id; 503 iff the put fails; 500 for a body or a database that fails; unless something fails the answer is 409 iff a constraint would be violated; what is refused or fails after the put is deleted, unless the delete fails; no other object is ever touched |
| `Submission.AcceptedIff` | src/rag_ingestion/interfaces/api.py:154-204 | a form is refused iff the tables hold its tenant not at all, or its document id, external id, version id, digest or event id already; an accepted one adds one document, one version and one event, each column as the form and the body say |
| `Workers.DocumentFetcher.Handle` | src/rag_ingestion/workers/document_fetcher.py:331-362 | exactly the transaction for what the stored bytes are, or an exception and nothing; unless the store or the database fails, only for an unreadable source, a parser crash or a transaction that raises |
| `Pipeline.FetchInputsIff` | src/rag_ingestion/workers/document_fetcher.py:341-362 | what the handler passes to `process`: `unexpected_event_type` for any event but DocumentSubmitted; else, if the source can be read, what signature, size and parser say of its bytes, and nothing if the inspector crashes |
| `Workers.FetcherLoop.HandleAndCommit` | src/rag_ingestion/workers/document_fetcher.py:409-415 | a record is committed only after its handler's transaction |
| `Workers.FetcherLoop.Run` | src/rag_ingestion/workers/document_fetcher.py:390-415 | however the loop ends, every record below the committed offsets is processed, also after a restart |
| `Workers.ContentExtractor.StoreArtifacts` | src/rag_ingestion/workers/content_extractor.py:363-366 | both objects of the result, under the version's own keys, before the transaction; after an exception none, the first or both |
| `Workers.ContentExtractor.Handle` | src/rag_ingestion/workers/content_extractor.py:345-369 | exactly the transaction for the outcome of the conversion, with exactly its two artifacts stored before, and no artifact for a rejection; an exception leaves the tables as they were and, unless a store or the database fails, has one of three named causes |
| `Pipeline.ExtractOutcomeIff` | src/rag_ingestion/workers/content_extractor.py:347-369 | what the handler makes of a payload: `unexpected_event_type` iff it is no DocumentFetched, `unsupported_source` iff it is not valid or not application/pdf, else what size, converter and digest say of the bytes, with all of the evidence kept |
| `PipelineSteps.ReadsOwnObject` | src/rag_ingestion/infrastructure/document_submission.py:56-62 | no other object can be under the key that `get` asks for |
| `PipelineSteps.CallsAvoidVersions` | src/rag_ingestion/interfaces/api.py:154-209 | no request that still runs touches the object of a committed version |
| `PipelineSteps.CommitKeepsStore` | src/rag_ingestion/interfaces/api.py:182-196 | a committed submission references the object that was put for it |
| `PipelineSteps.BeginFetchIsOk` | src/rag_ingestion/workers/document_fetcher.py:348-362 | what the fetcher passes to `process` is the truth about the committed bytes |
| `PipelineSteps.BeginExtractIsOk` | src/rag_ingestion/workers/content_extractor.py:347-361 | what the extractor makes of a record is within its possible outcomes |

## Left out

- Columns and payload parts without influence on the protocol: `last_error`, `published_at`, `title`,
  `classification`, the metadata JSON columns, `ingestion_failures`, headers, `occurred_at`, `schema_version`, and the
  quality summary.
- What the artifacts contain besides the cleaned document, the markdown, the status and the digest: the other members
  are constants or functions of these.
- Guarantees.FetchRejections: says nothing of a document rejected with `invalid_pdf_signature`, since the first read may
  have been short in an arbitrary run; `Origins.FetchOutcomeIsVerdict` says it for runs whose first reads are not.
- Stores.ArtifactStore.PutJson: keeps the value and not its JSON bytes; equal values have equal bytes.
- Row ids: an outbox row is its insertion position. Offsets are positions in the log of all partitions together, which
  keeps the order of each partition.
- Kafka rebalancing, ambiguous commits, retries inside the Kafka client, and the order in which the client delivers:
  any queued record may be delivered next, to any partition.
- Cancellation of tasks when the extractor stops: a restart forgets them, and they may still finish.
- Broker error events on `poll`, which end the process or are skipped.
- Avro encoding and decoding, taken to return the encoded record.
- Logging, metrics, tracing, settings, roles and row-level security, topic creation, the command line client, and the
  Content-Length check in front of the streamed limit.
- The stages behind content.extracted, and both dead letter topics after a record is in them.
- Liveness beyond the waiting bound: `CarriesThrough` and `DrainReaches` say what can follow, not what must.
- Unicode case folding in artifact keys: only ASCII letters can lower-case to a letter of a forbidden key here.
- Publishing.OutboxPublisher.PublishBatch: other processes do not touch the table between its statements; what they do
  in between is the subject of `Relay` and `OutboxGuarantees`.
- Workers.FetcherLoop.Run: the log and the committed offsets it starts from are those of one process lifetime; the
  interleaving with producers, other processes and restarts is in `Pipeline`.
- ExtractorSlots.ExtractorLoop.Run: a task stands for its handler, which ends with a result or an exception; what the
  handler does is in `Workers` and `Pipeline`.
