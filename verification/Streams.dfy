/** The three streaming loops: upload, fetch inspection and extraction. Each is proved against a function of the
    whole content, so its result does not depend on how the stream cuts the bytes into chunks. */
module Streams {
  import opened Basics
  import opened Domain
  import opened JsonTree

  const CHUNK: nat := 1024 * 1024

  const SIGNATURE: Bytes := [0x25, 0x50, 0x44, 0x46, 0x2D]

  /** A stream that may return fewer bytes than asked for, but none only at its end, and may fail. */
  class ByteStream {
    const content: Bytes
    var pos: nat
    ghost var lengths: seq<nat>  // the lengths of the chunks returned so far
    ghost var faults: nat

    constructor (content: Bytes)
      ensures this.content == content && pos == 0 && lengths == [] && faults == 0
    {
      this.content := content;
      pos := 0;
      lengths := [];
      faults := 0;
    }

    ghost predicate Valid()
      reads this
    {
      pos <= |content|
    }

    /** The next chunk; None is a chunk that could not be read, or not be spooled. Asking for no bytes or a negative
        number is ruled out: Python would return nothing, or everything. */
    method Read(n: int) returns (chunk: Option<Bytes>)
      requires Valid() && n > 0
      modifies this
      ensures Valid() && old(pos) <= pos <= old(pos) + n
      ensures faults == old(faults) + if chunk.Some? then 0 else 1
      ensures chunk.None? ==> lengths == old(lengths)
      ensures chunk.Some? ==>
                && lengths == old(lengths) + [|chunk.value|]
                && chunk.value == content[old(pos)..pos] && |chunk.value| <= n
                && (chunk.value == [] <==> old(pos) == |content|)
    {
      var left := |content| - pos;
      var size := 0;
      if left > 0 {
        size :| 1 <= size <= left && size <= n;
      }
      var bytes := content[pos..pos + size];
      pos := pos + size;
      if * {
        faults := faults + 1;
        return None;
      }
      lengths := lengths + [|bytes|];
      return Some(bytes);
    }
  }

  predicate IsPdf(content: Bytes) {
    SIGNATURE <= content
  }

  // ---- Fetch inspection ----

  // What pypdf makes of the bytes. Crash is an exception that the inspector does not translate.
  datatype PdfParse = Pages(count: nat) | Encrypted | Unreadable | Crash

  datatype SourceInspection =
    SourceInspection(detectedMimeType: string, contentSha256: string, byteSize: nat, pageCount: nat)

  datatype Inspection = Inspected(source: SourceInspection) | Invalid(error: FetchError) | InspectionRaised

  /** The verdict on whole content. */
  function Verdict(content: Bytes, max: nat, sha: Bytes -> string, parse: Bytes -> PdfParse): Inspection {
    if !IsPdf(content) then Invalid(InvalidPdfSignature)
    else if |content| > max then Invalid(DocumentTooLarge)
    else Parsed(content, sha, parse)
  }

  function Parsed(content: Bytes, sha: Bytes -> string, parse: Bytes -> PdfParse): Inspection {
    match parse(content)
    case Encrypted => Invalid(EncryptedPdf)
    case Unreadable => Invalid(CorruptPdf)
    case Crash => InspectionRaised
    case Pages(n) => Inspected(SourceInspection(PDF_MIME, sha(content), |content|, n))
  }

  /** The verdict when the first read returned only `first` bytes. */
  function Inspect(content: Bytes, first: nat, max: nat, sha: Bytes -> string, parse: Bytes -> PdfParse): Inspection
    requires first <= |content|
  {
    if !IsPdf(content[..first]) then Invalid(InvalidPdfSignature)
    else Verdict(content, max, sha, parse)
  }

  /** Short reads are harmless exactly when the first one covers the signature or the whole stream, or when there
      is no signature to find. */
  lemma ShortReadsHarmless(content: Bytes, first: nat, max: nat, sha: Bytes -> string, parse: Bytes -> PdfParse)
    requires first <= |content|
    ensures Inspect(content, first, max, sha, parse) == Verdict(content, max, sha, parse)
            <==> (first >= |SIGNATURE| || first == |content| || !IsPdf(content))
  {
    assert content[..|content|] == content;
    if first >= |SIGNATURE| && IsPdf(content) {
      assert content[..first][..|SIGNATURE|] == content[..|SIGNATURE|];
    }
    if IsPdf(content[..first]) {
      assert content[..|SIGNATURE|] == content[..first][..|SIGNATURE|];
    }
  }

  /** What each verdict means. A first read of fewer than five bytes passes for a missing signature. */
  lemma VerdictIff(content: Bytes, first: nat, max: nat, sha: Bytes -> string, parse: Bytes -> PdfParse)
    requires first <= |content|
    ensures var v := Inspect(content, first, max, sha, parse);
            var signed := first >= 5 && content[..5] == [0x25, 0x50, 0x44, 0x46, 0x2D];
            && (v == Invalid(InvalidPdfSignature) <==> !signed)
            && (v == Invalid(DocumentTooLarge) <==> signed && |content| > max)
            && (v == Invalid(EncryptedPdf) <==> signed && |content| <= max && parse(content).Encrypted?)
            && (v == Invalid(CorruptPdf) <==> signed && |content| <= max && parse(content).Unreadable?)
            && (v == InspectionRaised <==> signed && |content| <= max && parse(content).Crash?)
            && (v.Inspected? <==> signed && |content| <= max && parse(content).Pages?)
            && (v.Inspected? ==> v.source == SourceInspection("application/pdf", sha(content), |content|,
                                                              parse(content).count))
  {
    if first >= 5 {
      assert content[..first][..5] == content[..5];
    }
    if IsPdf(content[..first]) {
      StartsWithSignature(content, first);
    }
  }

  predicate ReachesParser(v: Inspection) {
    v != Invalid(InvalidPdfSignature) && v != Invalid(DocumentTooLarge)
  }

  /** With a first read of at least five bytes, or of everything, a document reaches the PDF parser if and only if
      it starts with the signature and is within the limit. */
  lemma PassesIff(content: Bytes, first: nat, max: nat, sha: Bytes -> string, parse: Bytes -> PdfParse)
    requires first <= |content| && (first >= |SIGNATURE| || first == |content|)
    ensures ReachesParser(Inspect(content, first, max, sha, parse)) <==> IsPdf(content) && |content| <= max
    ensures Inspect(content, first, max, sha, parse).Inspected? ==>
              var s := Inspect(content, first, max, sha, parse).source;
              s.contentSha256 == sha(content) && s.byteSize == |content|
  {
    ShortReadsHarmless(content, first, max, sha, parse);
  }

  predicate Permitted(declaredMime: Option<string>) {
    declaredMime.None? || declaredMime.value in ["", PDF_MIME, OCTET_MIME]
  }

  /** What the first read can return: a chunk within both bounds, and nothing only of an empty stream. */
  predicate FirstChunk(content: Bytes, first: nat, max: nat) {
    first <= |content| && first <= CHUNK && first <= max + 1 && (first == 0 ==> content == [])
  }

  /** `inspect_pdf`. At most max + 1 bytes are consumed. */
  method InspectPdf(source: ByteStream, declaredMime: Option<string>, max: nat, sha: Bytes -> string,
                    parse: Bytes -> PdfParse)
    returns (r: Inspection)
    requires source.Valid() && source.pos == 0 && source.lengths == []
    modifies source
    ensures source.Valid() && source.pos <= max + 1 && source.faults >= old(source.faults)
    ensures source.faults > old(source.faults) ==> r == InspectionRaised
    ensures !Permitted(declaredMime) ==>
              r == Invalid(DeclaredMimeMismatch) && source.lengths == [] && source.faults == old(source.faults)
    ensures Permitted(declaredMime) && source.faults == old(source.faults) ==>
              && source.lengths != [] && FirstChunk(source.content, source.lengths[0], max)
              && r == Inspect(source.content, source.lengths[0], max, sha, parse)
    ensures r == Invalid(DeclaredMimeMismatch) <==>
              declaredMime.Some? && declaredMime.value !in ["", "application/pdf", "application/octet-stream"]
    ensures r == Invalid(EncryptedPdf) ==> parse(source.content).Encrypted?
    ensures r == Invalid(CorruptPdf) ==> parse(source.content).Unreadable?
    ensures r.Inspected? ==>
              && parse(source.content).Pages? && IsPdf(source.content) && |source.content| <= max
              && r.source == SourceInspection("application/pdf", sha(source.content), |source.content|,
                                              parse(source.content).count)
  {
    if declaredMime.Some? && declaredMime.value != "" && declaredMime.value !in [PDF_MIME, OCTET_MIME] {
      return Invalid(DeclaredMimeMismatch);
    }
    var first := source.Read(Min(CHUNK, max + 1));
    if first.None? {
      return InspectionRaised;
    }
    var chunk := first.value;
    assert chunk == source.content[..|chunk|];
    if !IsPdf(chunk) {
      return Invalid(InvalidPdfSignature);
    }
    StartsWithSignature(source.content, |chunk|);
    var digested: Bytes, byteSize := [], 0;
    while chunk != []
      invariant source.Valid() && source.pos <= max + 1 && source.faults == old(source.faults)
      invariant source.lengths != [] && source.lengths[0] == |first.value|
      invariant digested + chunk == source.content[..source.pos]
      invariant byteSize == |digested| <= max
      invariant chunk == [] ==> source.pos == |source.content|
      decreases |source.content| - source.pos, |chunk|
    {
      if byteSize + |chunk| > max {
        return Invalid(DocumentTooLarge);
      }
      digested := digested + chunk;
      byteSize := byteSize + |chunk|;
      var remaining := max - byteSize;
      var next := source.Read(Min(CHUNK, remaining + 1));
      if next.None? {
        return InspectionRaised;
      }
      chunk := next.value;
      assert digested + chunk == source.content[..source.pos];
    }
    assert digested == source.content;
    r := match parse(digested)
      case Encrypted => Invalid(EncryptedPdf)
      case Unreadable => Invalid(CorruptPdf)
      case Crash => InspectionRaised
      case Pages(n) => Inspected(SourceInspection(PDF_MIME, sha(digested), byteSize, n));
  }

  lemma StartsWithSignature(content: Bytes, first: nat)
    requires first <= |content| && IsPdf(content[..first])
    ensures IsPdf(content)
  {
    assert content[..|SIGNATURE|] == content[..first][..|SIGNATURE|];
  }

  // ---- Extraction ----

  // What the converter makes of the temporary file. ConverterMissing is the RuntimeError for an image without it.
  datatype Conversion = Converted(document: Value, markdown: string) | NotConverted | NotADocument | ConverterMissing

  datatype ExtractionResult =
    ExtractionResult(document: Value, markdown: string, sourceBytes: nat, status: ExtractionStatus)

  datatype Extraction = Extracted(result: ExtractionResult) | Rejected(error: ExtractError) | ExtractionRaised

  predicate Whitespace(c: char) {
    || '\t' <= c <= '\r' || c == ' '
    || (0x1C <= c as int <= 0x1F) || c as int in {0x85, 0xA0, 0x1680, 0x2028, 0x2029, 0x202F, 0x205F, 0x3000}
    || (0x2000 <= c as int <= 0x200A)
  }

  /** len(markdown.strip()) == 0 */
  predicate Blank(markdown: string) {
    forall c :: c in markdown ==> Whitespace(c)
  }

  /** The extraction of whole content, given what the converter made of it. */
  function Extract(content: Bytes, max: nat, expectedSha: string, sha: Bytes -> string,
                   conversion: Conversion): Extraction {
    if |content| > max then Rejected(SourceTooLarge)
    else if content == [] then Rejected(EmptySource)
    else
      match conversion
      case ConverterMissing => ExtractionRaised
      case NotConverted => Rejected(ConversionFailed)
      case NotADocument => Rejected(InvalidConverterOutput)
      case Converted(document, markdown) =>
        if sha(content) != expectedSha then Rejected(SourceChecksumMismatch)
        else Extracted(ExtractionResult(WithoutBinary(document), markdown, |content|,
                                        if Blank(markdown) then NeedsReview else Succeeded))
  }

  /** The markdown has no character but white space: the 29 code points that `str.strip` removes. */
  predicate NoText(markdown: string) {
    forall i :: 0 <= i < |markdown| ==>
      markdown[i] as int in {9, 10, 11, 12, 13, 28, 29, 30, 31, 32, 133, 160, 5760, 8192, 8193, 8194, 8195, 8196, 8197,
                             8198, 8199, 8200, 8201, 8202, 8232, 8233, 8239, 8287, 12288}
  }

  lemma BlankIff(markdown: string)
    ensures Blank(markdown) <==> NoText(markdown)
  {
    if Blank(markdown) {
      forall i | 0 <= i < |markdown| ensures Whitespace(markdown[i]) {
        assert markdown[i] in markdown;
      }
    }
  }

  /** `r` is what is to be kept of a conversion: its evidence, all of it and without a forbidden key, its markdown, and
      whether somebody has to look at it. */
  ghost predicate Faithful(document: Value, markdown: string, r: ExtractionResult) {
    && Clean(r.document) && HoldsEvidence(document, r.document) && r.markdown == markdown
    && r.status == if NoText(markdown) then NeedsReview else Succeeded
  }

  /** What each outcome of an extraction means. */
  lemma OutcomeIff(content: Bytes, max: nat, expectedSha: string, sha: Bytes -> string, conversion: Conversion)
    ensures var r := Extract(content, max, expectedSha, sha, conversion);
            var bounded := 0 < |content| <= max;
            && (r == Rejected(SourceTooLarge) <==> |content| > max)
            && (r == Rejected(EmptySource) <==> content == [])
            && (r == ExtractionRaised <==> bounded && conversion.ConverterMissing?)
            && (r == Rejected(ConversionFailed) <==> bounded && conversion.NotConverted?)
            && (r == Rejected(InvalidConverterOutput) <==> bounded && conversion.NotADocument?)
            && (r == Rejected(SourceChecksumMismatch) <==>
                  bounded && conversion.Converted? && sha(content) != expectedSha)
            && (r.Extracted? <==> bounded && conversion.Converted? && sha(content) == expectedSha)
  {
  }

  /** `extract_pdf`; the converter itself already returns a cleaned document. */
  method ExtractPdf(source: ByteStream, max: nat, expectedSha: string, sha: Bytes -> string,
                    convert: Bytes -> Conversion)
    returns (r: Extraction)
    requires source.Valid() && source.pos == 0
    modifies source
    ensures source.Valid() && source.pos <= max + CHUNK && source.faults >= old(source.faults)
    ensures source.faults > old(source.faults) ==> r == ExtractionRaised
    ensures source.faults == old(source.faults) ==>
              r == Extract(source.content, max, expectedSha, sha, convert(source.content))
    ensures r.Extracted? ==>
              && convert(source.content).Converted? && r.result.sourceBytes == |source.content|
              && Faithful(convert(source.content).document, convert(source.content).markdown, r.result)
    ensures r == Rejected(ConversionFailed) ==> convert(source.content).NotConverted?
    ensures r == Rejected(InvalidConverterOutput) ==> convert(source.content).NotADocument?
  {
    var total := 0;
    var written: Bytes := [];
    var next := source.Read(CHUNK);
    if next.None? {
      return ExtractionRaised;
    }
    var chunk := next.value;
    while chunk != []
      invariant source.faults == old(source.faults)
      invariant source.Valid() && source.pos <= total + |chunk| && |chunk| <= CHUNK
      invariant written + chunk == source.content[..source.pos]
      invariant total == |written| <= max
      invariant chunk == [] ==> source.pos == |source.content|
      decreases |source.content| - source.pos, |chunk|
    {
      total := total + |chunk|;
      if total > max {
        return Rejected(SourceTooLarge);
      }
      written := written + chunk;
      next := source.Read(CHUNK);
      if next.None? {
        return ExtractionRaised;
      }
      chunk := next.value;
      assert written + chunk == source.content[..source.pos];
    }
    assert written == source.content;
    if total == 0 {
      return Rejected(EmptySource);
    }
    match convert(written) {
      case ConverterMissing => return ExtractionRaised;
      case NotConverted => return Rejected(ConversionFailed);
      case NotADocument => return Rejected(InvalidConverterOutput);
      case Converted(document, markdown) =>
        var exported := WithoutBinary(WithoutBinary(document));
        Idempotent(document);
        ResultIsClean(document);
        ResultHoldsEvidence(document);
        BlankIff(markdown);
        if sha(written) != expectedSha {
          return Rejected(SourceChecksumMismatch);
        }
        var status := if Blank(markdown) then NeedsReview else Succeeded;
        return Extracted(ExtractionResult(exported, markdown, total, status));
    }
  }

  /** What is extracted is all that the converter found, without a forbidden key, and comes from exactly the expected
      bytes. */
  lemma ExtractedIsFaithful(content: Bytes, max: nat, expectedSha: string, sha: Bytes -> string,
                            conversion: Conversion)
    ensures var r := Extract(content, max, expectedSha, sha, conversion);
            r.Extracted? ==>
              && conversion.Converted? && Faithful(conversion.document, conversion.markdown, r.result)
              && sha(content) == expectedSha && 0 < r.result.sourceBytes == |content| <= max
  {
    if conversion.Converted? {
      ResultIsClean(conversion.document);
      ResultHoldsEvidence(conversion.document);
      BlankIff(conversion.markdown);
    }
  }

  // The two stored JSON objects; their other members are constants or functions of these.
  datatype Artifact =
    | Normalized(document: Value, markdown: string)
    | Manifest(status: ExtractionStatus, sourceSha: string)

  function NormalizedOf(r: ExtractionResult): Artifact {
    Normalized(r.document, r.markdown)
  }

  function ManifestOf(r: ExtractionResult, sourceSha: string): Artifact {
    Manifest(r.status, sourceSha)
  }

  // ---- Upload ----

  datatype Upload = Buffered(bytes: Bytes) | LimitExceeded | UploadRaised

  /** The streaming part of `submit_document`: the buffered bytes, or 413. No more than one chunk is read beyond the
      limit. */
  method ReceiveUpload(file: ByteStream, max: nat) returns (r: Upload)
    requires file.Valid() && file.pos == 0
    modifies file
    ensures file.Valid() && file.pos <= max + CHUNK && file.faults >= old(file.faults)
    ensures r.UploadRaised? <==> file.faults > old(file.faults)
    ensures file.faults == old(file.faults) ==>
              r == if |file.content| <= max then Buffered(file.content) else LimitExceeded
    ensures r.LimitExceeded? ==> |file.content| > max
  {
    var bytes: Bytes, byteSize := [], 0;
    var next := file.Read(CHUNK);
    if next.None? {
      return UploadRaised;
    }
    var chunk := next.value;
    while chunk != []
      invariant file.faults == old(file.faults)
      invariant file.Valid() && file.pos <= byteSize + |chunk| && |chunk| <= CHUNK
      invariant bytes + chunk == file.content[..file.pos]
      invariant byteSize == |bytes| <= max
      invariant chunk == [] ==> file.pos == |file.content|
      decreases |file.content| - file.pos, |chunk|
    {
      if byteSize + |chunk| > max {
        return LimitExceeded;
      }
      byteSize := byteSize + |chunk|;
      bytes := bytes + chunk;
      next := file.Read(CHUNK);
      if next.None? {
        return UploadRaised;
      }
      chunk := next.value;
      assert bytes + chunk == file.content[..file.pos];
    }
    assert bytes == file.content;
    return Buffered(bytes);
  }
}
