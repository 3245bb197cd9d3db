/** Identifiers, events and contract builders shared by every stage of the pipeline. */
module Domain {

  datatype Option<+T> = None | Some(value: T)

  datatype Result<+T, +E> = Ok(value: T) | Err(error: E)

  /** Python's `a or b` on an optional string. */
  function OrElse(a: Option<string>, b: string): string {
    if a.Some? && a.value != "" then a.value else b
  }

  // A UUID is carried in its canonical text form; `SourceKeys.IsUuid` says what that form is.
  type Id = string

  type Bytes = seq<bv8>

  // Microseconds, the resolution of TIMESTAMPTZ. One clock is shared by every process.
  type Time = nat

  const SECOND: nat := 1_000_000

  const PDF_MIME := "application/pdf"
  const OCTET_MIME := "application/octet-stream"

  datatype Consumer = DocumentFetcher | ContentExtractor

  datatype Topic = SubmittedTopic | FetchedTopic | ExtractedTopic | FetcherDlq | ExtractorDlq

  datatype FetchError =
    | UnexpectedSubmission
    | InvalidPdfSignature
    | DocumentTooLarge
    | EncryptedPdf
    | CorruptPdf
    | DeclaredMimeMismatch
    | UnknownSourceObject
    | FetchChecksumMismatch

  datatype ExtractError =
    | UnexpectedEventType
    | UnsupportedSource
    | SourceTooLarge
    | EmptySource
    | ConversionFailed
    | InvalidConverterOutput
    | SourceChecksumMismatch
    | UnknownDocumentVersion

  datatype ExtractionStatus = ExtractionPending | Succeeded | NeedsReview | ExtractionFailed

  datatype Event =
    | DocumentSubmitted(eventId: Id, correlationId: Id, causationId: Option<Id>, tenantId: Id, documentId: Id,
                        payloadUri: string)
    | DocumentFetched(eventId: Id, correlationId: Id, causationId: Option<Id>, tenantId: Id, documentId: Id,
                      documentVersionId: Id, payloadUri: string, detectedMimeType: string,
                      contentSha256: string, byteSize: nat, inspectionStatus: string)
    | DocumentFetchRejected(eventId: Id, correlationId: Id, causationId: Option<Id>, tenantId: Id, documentId: Id,
                            payloadUri: string, fetchError: FetchError)
    | ContentExtracted(eventId: Id, correlationId: Id, causationId: Option<Id>, tenantId: Id, documentId: Id,
                       documentVersionId: Id, contentSha256: string, normalizedUri: string, manifestUri: string,
                       extractionStatus: ExtractionStatus)
    | ContentExtractionRejected(eventId: Id, correlationId: Id, causationId: Option<Id>, tenantId: Id, documentId: Id,
                                documentVersionId: Id, extractError: ExtractError)

  /** The topic each insert statement names for the event type it stores. */
  function TopicOf(e: Event): Topic {
    match e
    case DocumentSubmitted(_, _, _, _, _, _) => SubmittedTopic
    case DocumentFetched(_, _, _, _, _, _, _, _, _, _, _) => FetchedTopic
    case DocumentFetchRejected(_, _, _, _, _, _, _) => FetcherDlq
    case ContentExtracted(_, _, _, _, _, _, _, _, _, _) => ExtractedTopic
    case ContentExtractionRejected(_, _, _, _, _, _, _) => ExtractorDlq
  }

  function BuildDocumentSubmitted(eventId: Id, tenantId: Id, documentId: Id, payloadUri: string,
                                  correlationId: Option<Id>): Event {
    DocumentSubmitted(eventId, if correlationId.Some? then correlationId.value else eventId, None,
                      tenantId, documentId, payloadUri)
  }

  function BuildDocumentFetched(eventId: Id, tenantId: Id, documentId: Id, documentVersionId: Id, payloadUri: string,
                                detectedMimeType: string, contentSha256: string, byteSize: nat,
                                correlationId: Id, causationId: Id): Event {
    DocumentFetched(eventId, correlationId, Some(causationId), tenantId, documentId, documentVersionId, payloadUri,
                    detectedMimeType, contentSha256, byteSize, "valid")
  }

  function BuildDocumentFetchRejected(eventId: Id, tenantId: Id, documentId: Id, payloadUri: string,
                                      correlationId: Id, causationId: Id, error: FetchError): Event {
    DocumentFetchRejected(eventId, correlationId, Some(causationId), tenantId, documentId, payloadUri, error)
  }

  function BuildContentExtracted(eventId: Id, tenantId: Id, documentId: Id, documentVersionId: Id,
                                 contentSha256: string, normalizedUri: string, manifestUri: string,
                                 status: ExtractionStatus, correlationId: Id, causationId: Id): Event {
    ContentExtracted(eventId, correlationId, Some(causationId), tenantId, documentId, documentVersionId,
                     contentSha256, normalizedUri, manifestUri, status)
  }

  function BuildContentExtractionRejected(eventId: Id, tenantId: Id, documentId: Id, documentVersionId: Id,
                                          correlationId: Id, causationId: Id, error: ExtractError): Event {
    ContentExtractionRejected(eventId, correlationId, Some(causationId), tenantId, documentId, documentVersionId,
                              error)
  }
}
