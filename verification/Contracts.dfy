/** Which checked-in Avro contract an outbox row is serialized with. */
module Contracts {
  import opened Domain

  type Contract = (string, string)  // (namespace, schema name)

  // The metadata columns of an outbox row, under their current and their former names.
  datatype Metadata =
    Metadata(eventContractNamespace: Option<string>, schemaGroupId: Option<string>, eventSchemaName: Option<string>,
             schemaArtifactId: Option<string>)

  const NAMESPACE := "rag.ingestion.v1"

  const SCHEMA_FILES: map<Contract, string> := map[
    (NAMESPACE, "document-submitted") := "document-submitted.avsc",
    (NAMESPACE, "document-fetched") := "document-fetched.avsc",
    (NAMESPACE, "document-fetch-rejected") := "document-fetch-rejected.avsc",
    (NAMESPACE, "content-extracted") := "content-extracted.avsc",
    (NAMESPACE, "content-extraction-rejected") := "content-extraction-rejected.avsc"
  ]

  /** None is the ValueError for a row without a schema name. */
  function ResolveContractMetadata(m: Metadata): Option<Contract> {
    var namespace := OrElse(m.eventContractNamespace, OrElse(m.schemaGroupId, NAMESPACE));
    var name := OrElse(m.eventSchemaName, OrElse(m.schemaArtifactId, ""));
    if name == "" then None else Some((namespace, name))
  }

  function SchemaNameOf(e: Event): string {
    match e
    case DocumentSubmitted(_, _, _, _, _, _) => "document-submitted"
    case DocumentFetched(_, _, _, _, _, _, _, _, _, _, _) => "document-fetched"
    case DocumentFetchRejected(_, _, _, _, _, _, _) => "document-fetch-rejected"
    case ContentExtracted(_, _, _, _, _, _, _, _, _, _) => "content-extracted"
    case ContentExtractionRejected(_, _, _, _, _, _, _) => "content-extraction-rejected"
  }

  /** The columns of a row that the pipeline inserted: the namespace is the column default. */
  function StoredMetadata(e: Event): Metadata {
    Metadata(Some(NAMESPACE), None, Some(SchemaNameOf(e)), None)
  }

  predicate Given(column: Option<string>) {
    column.Some? && |column.value| > 0
  }

  /** A column under its current name, or else under its former one, or else the default; empty text is no text. */
  lemma ResolvedMetadata(m: Metadata)
    ensures var r := ResolveContractMetadata(m);
            && (r.Some? <==> Given(m.eventSchemaName) || Given(m.schemaArtifactId))
            && (Given(m.eventSchemaName) ==> r.value.1 == m.eventSchemaName.value)
            && (!Given(m.eventSchemaName) && Given(m.schemaArtifactId) ==> r.value.1 == m.schemaArtifactId.value)
            && (r.Some? && Given(m.eventContractNamespace) ==> r.value.0 == m.eventContractNamespace.value)
            && (r.Some? && !Given(m.eventContractNamespace) && Given(m.schemaGroupId) ==>
                  r.value.0 == m.schemaGroupId.value)
            && (r.Some? && !Given(m.eventContractNamespace) && !Given(m.schemaGroupId) ==>
                  r.value.0 == "rag.ingestion.v1")
  {
  }

  /** The schema file that the row of an event is serialized with; None if it has none. */
  function SchemaFileOf(e: Event): Option<string> {
    var contract := ResolveContractMetadata(StoredMetadata(e));
    if contract.Some? && contract.value in SCHEMA_FILES then Some(SCHEMA_FILES[contract.value]) else None
  }

  /** Every pipeline event is serialized with the contract of its own type. */
  lemma PipelineEventsHaveContracts(e: Event)
    ensures e.DocumentSubmitted? ==> SchemaFileOf(e) == Some("document-submitted.avsc")
    ensures e.DocumentFetched? ==> SchemaFileOf(e) == Some("document-fetched.avsc")
    ensures e.DocumentFetchRejected? ==> SchemaFileOf(e) == Some("document-fetch-rejected.avsc")
    ensures e.ContentExtracted? ==> SchemaFileOf(e) == Some("content-extracted.avsc")
    ensures e.ContentExtractionRejected? ==> SchemaFileOf(e) == Some("content-extraction-rejected.avsc")
  {
    SchemaFiles();
  }

  /** The keys of the table differ, so no entry hides another. */
  lemma SchemaFiles()
    ensures SCHEMA_FILES.Keys == {("rag.ingestion.v1", "document-submitted"), ("rag.ingestion.v1", "document-fetched"),
                                  ("rag.ingestion.v1", "document-fetch-rejected"),
                                  ("rag.ingestion.v1", "content-extracted"),
                                  ("rag.ingestion.v1", "content-extraction-rejected")}
    ensures SCHEMA_FILES[("rag.ingestion.v1", "document-submitted")] == "document-submitted.avsc"
    ensures SCHEMA_FILES[("rag.ingestion.v1", "document-fetched")] == "document-fetched.avsc"
    ensures SCHEMA_FILES[("rag.ingestion.v1", "document-fetch-rejected")] == "document-fetch-rejected.avsc"
    ensures SCHEMA_FILES[("rag.ingestion.v1", "content-extracted")] == "content-extracted.avsc"
    ensures SCHEMA_FILES[("rag.ingestion.v1", "content-extraction-rejected")] == "content-extraction-rejected.avsc"
  {
    var submitted, fetched, rejected := "document-submitted", "document-fetched", "document-fetch-rejected";
    var extracted, failed := "content-extracted", "content-extraction-rejected";
    assert |submitted| == 18 && |fetched| == 16 && |rejected| == 23 && |extracted| == 17 && |failed| == 27;
  }

  class SerializerCache {
    var serializers: map<Contract, string>  // each contract with the schema file its serializer was built from

    constructor ()
      ensures Valid() && serializers == map[]
    {
      serializers := map[];
    }

    ghost predicate Valid()
      reads this
    {
      forall key :: key in serializers ==> key in SCHEMA_FILES && serializers[key] == SCHEMA_FILES[key]
    }

    /** `_serializer`: the answer is the file of that contract, whatever is cached. None is the ValueError, and caches
        nothing. */
    method Serializer(namespace: string, name: string) returns (file: Option<string>)
      requires Valid()
      modifies this
      ensures Valid()
      ensures var key := (namespace, name);
              && file == (if key in SCHEMA_FILES then Some(SCHEMA_FILES[key]) else None)
              && serializers.Keys == old(serializers.Keys) + (if key in SCHEMA_FILES then {key} else {})
      ensures file.Some? <==>
                && namespace == "rag.ingestion.v1"
                && name in {"document-submitted", "document-fetched", "document-fetch-rejected", "content-extracted",
                            "content-extraction-rejected"}
      ensures file.Some? && name == "document-submitted" ==> file.value == "document-submitted.avsc"
      ensures file.Some? && name == "document-fetched" ==> file.value == "document-fetched.avsc"
      ensures file.Some? && name == "document-fetch-rejected" ==> file.value == "document-fetch-rejected.avsc"
      ensures file.Some? && name == "content-extracted" ==> file.value == "content-extracted.avsc"
      ensures file.Some? && name == "content-extraction-rejected" ==> file.value == "content-extraction-rejected.avsc"
    {
      SchemaFiles();
      var key := (namespace, name);
      if key !in serializers {
        if key !in SCHEMA_FILES {
          return None;
        }
        serializers := serializers[key := SCHEMA_FILES[key]];
      }
      return Some(serializers[key]);
    }
  }
}
