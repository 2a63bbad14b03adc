/**
 * The knowledge-base upload endpoint: it authenticates the caller, checks
 * the file in a fixed order (name, extension, size, emptiness), hands it to
 * ingestion and maps what ingestion raises to an HTTP status.
 *
 * The token check (`verify_token`) is given by its outcome: the user it
 * names, or `None` for an invalid or expired token.
 */
module RagApi {
  import opened Wrappers
  import opened PyStr
  import opened RagIngest

  /** An `HTTPException`: its status code and detail. */
  datatype HttpError = HttpError(status: int, detail: string)

  /** The largest accepted upload: 50 MiB. */
  const MaxFileSize: nat := 50 * 1024 * 1024

  /** `_get_user_id`: the token's user, or 401 when the token does not verify. */
  function UserIdOf(verified: Option<string>): (r: Result<string, HttpError>)
    ensures r.Ok? <==> verified.Some?
    ensures r.Ok? ==> r.value == verified.value
    ensures r.Err? ==> r.error == HttpError(401, "Invalid or expired token")
  {
    match verified
    case Some(user) => Ok(user)
    case None => Err(HttpError(401, "Invalid or expired token"))
  }

  function UnsupportedDetail(ext: string, supportedText: string): string
  {
    "Unsupported file type: " + ext + ". Supported: " + supportedText
  }

  /** The size limit in the too-large message is given in whole MiB. */
  function TooLargeDetail(): string
  {
    "File too large. Maximum size: " + NatToString(MaxFileSize / 1024 / 1024) + "MB"
  }

  /** The limit is written as `50MB`. */
  lemma TooLargeDetailText()
    ensures TooLargeDetail() == "File too large. Maximum size: 50MB"
  {
    assert MaxFileSize / 1024 / 1024 == 50;
    assert NatToString(5) == "5";
    assert NatToString(50) == NatToString(5) + ['0'];
  }

  /**
   * The checks `upload_document` makes before ingesting, in order: a
   * filename, a supported lower-cased extension, at most `MaxFileSize`
   * bytes, at least one byte. The first that fails answers 400.
   * `supportedText` is the supported extensions as the set lists them.
   */
  function UploadCheck(filename: Option<string>, content: Bytes, supportedText: string): (r: Option<HttpError>)
    ensures r == None <==>
      filename.Some? && filename.value != "" && Extension(filename.value) in SupportedExtensions &&
      0 < |content| <= MaxFileSize
    ensures r.Some? ==> r.value.status == 400
  {
    if filename.None? || filename.value == "" then Some(HttpError(400, "Filename is required"))
    else if Extension(filename.value) !in SupportedExtensions then
      Some(HttpError(400, UnsupportedDetail(Extension(filename.value), supportedText)))
    else if |content| > MaxFileSize then Some(HttpError(400, TooLargeDetail()))
    else if |content| == 0 then Some(HttpError(400, "File is empty"))
    else None
  }

  /**
   * Each check answers only when every earlier one passed: the detail names
   * the first requirement the file misses.
   */
  lemma UploadCheckOrder(filename: Option<string>, content: Bytes, supportedText: string)
    ensures filename.None? || filename == Some("") ==>
      UploadCheck(filename, content, supportedText) == Some(HttpError(400, "Filename is required"))
    ensures filename.Some? && filename.value != "" && Extension(filename.value) !in SupportedExtensions ==>
      UploadCheck(filename, content, supportedText) ==
        Some(HttpError(400, "Unsupported file type: " + Extension(filename.value) + ". Supported: " + supportedText))
    ensures filename.Some? && filename.value != "" && Extension(filename.value) in SupportedExtensions &&
            |content| > MaxFileSize ==>
      UploadCheck(filename, content, supportedText) == Some(HttpError(400, "File too large. Maximum size: 50MB"))
    ensures filename.Some? && filename.value != "" && Extension(filename.value) in SupportedExtensions &&
            |content| == 0 ==>
      UploadCheck(filename, content, supportedText) == Some(HttpError(400, "File is empty"))
  {
    TooLargeDetailText();
  }

  /** The dictionary `upload_document` returns. */
  datatype UploadResponse = UploadResponse(docId: string, filename: string, fileType: string, chunkCount: nat,
                                           createdAt: string, fileSize: nat)

  /** A `ValueError` from ingestion is the client's fault (400); anything else is the server's (500). */
  function IngestFailure(e: IngestError): (r: HttpError)
    ensures e.ValueError? ==> r == HttpError(400, e.message)
    ensures e.OtherError? ==> r == HttpError(500, "Document ingestion failed: " + e.message)
  {
    match e
    case ValueError(m) => HttpError(400, m)
    case OtherError(m) => HttpError(500, "Document ingestion failed: " + m)
  }

  /** The record `ingest_document` returns, or what it raised. */
  function IngestOutcome(x: Result<Ingestion, IngestError>): Result<IngestedDocument, IngestError>
  {
    match x
    case Ok(i) => Ok(i.record)
    case Err(e) => Err(e)
  }

  /**
   * `upload_document` once the caller is known: the first failed check, or
   * the response built from the ingested record, or the status of what
   * ingestion raised. `ingested` is what ingestion gives for this file; it
   * is consulted only when every check passes.
   */
  function Upload(filename: Option<string>, content: Bytes, supportedText: string,
                  ingested: Result<IngestedDocument, IngestError>): (r: Result<UploadResponse, HttpError>)
    ensures r.Ok? <==> UploadCheck(filename, content, supportedText) == None && ingested.Ok?
    ensures r.Ok? ==>
      (r.value.docId == ingested.value.docId && r.value.filename == ingested.value.filename &&
       r.value.fileType == ingested.value.fileType && r.value.chunkCount == ingested.value.chunkCount &&
       r.value.createdAt == ingested.value.createdAt && r.value.fileSize == ingested.value.fileSize)
    ensures UploadCheck(filename, content, supportedText) == None && ingested.Err? ==>
      r == Err(IngestFailure(ingested.error))
  {
    match UploadCheck(filename, content, supportedText)
    case Some(e) => Err(e)
    case None =>
      match ingested
      case Err(e) => Err(IngestFailure(e))
      case Ok(d) => Ok(UploadResponse(d.docId, d.filename, d.fileType, d.chunkCount, d.createdAt, d.fileSize))
  }

  /** A file that fails a check gets the same answer whatever ingestion would have done. */
  lemma RefusedBeforeIngestion(filename: Option<string>, content: Bytes, supportedText: string,
                               a: Result<IngestedDocument, IngestError>, b: Result<IngestedDocument, IngestError>)
    requires UploadCheck(filename, content, supportedText).Some?
    ensures Upload(filename, content, supportedText, a) == Upload(filename, content, supportedText, b)
    ensures Upload(filename, content, supportedText, a) == Err(UploadCheck(filename, content, supportedText).value)
  {
  }

  /**
   * A successful upload of `filename` with `content`, ingested under the
   * same name and bytes, reports that name, a supported type and a size of
   * 1 byte to 50 MiB; and a file that passed the checks is never refused
   * for its type by ingestion.
   */
  lemma UploadedFileFacts(filename: string, content: Bytes, userId: string, docId: string, now: string,
                          pointId: nat -> string, supportedText: string,
                          parse: (Parser, Bytes) -> Result<string, IngestError>, chunk: string -> seq<string>,
                          embed: seq<string> -> Result<seq<seq<int>>, IngestError>)
    ensures UploadCheck(Some(filename), content, supportedText) == None ==>
      ParseDocument(filename, content, supportedText, parse) ==
        parse(ParserFor(Extension(filename)).value, content)
    ensures var x := Ingested(filename, content, userId, None, docId, now, pointId, supportedText, parse, chunk, embed);
      var r := Upload(Some(filename), content, supportedText, IngestOutcome(x));
      r.Ok? ==>
        r.value.filename == filename && r.value.fileType in SupportedExtensions &&
        r.value.fileSize == |content| && 0 < r.value.fileSize <= MaxFileSize &&
        r.value.docId == docId && r.value.createdAt == now
  {
  }

  /**
   * `upload_document` against a store: a file that fails a check leaves the
   * store untouched; otherwise it is ingested (which writes its points when
   * it succeeds) and the answer is that of `Upload` for the outcome.
   */
  method UploadDocument(store: VectorStore, filename: Option<string>, content: Bytes, userId: string,
                        docId: string, now: string, pointId: nat -> string, supportedText: string,
                        parse: (Parser, Bytes) -> Result<string, IngestError>, chunk: string -> seq<string>,
                        embed: seq<string> -> Result<seq<seq<int>>, IngestError>)
    returns (r: Result<UploadResponse, HttpError>)
    modifies store
    ensures UploadCheck(filename, content, supportedText).Some? ==>
      r == Err(UploadCheck(filename, content, supportedText).value) && store.upserts == old(store.upserts)
    ensures UploadCheck(filename, content, supportedText) == None ==>
      var x := Ingested(filename.value, content, userId, None, docId, now, pointId, supportedText, parse, chunk, embed);
      r == Upload(filename, content, supportedText, IngestOutcome(x)) &&
      store.upserts == old(store.upserts) + (if x.Ok? then Batches(x.value.points, BatchSize) else [])
  {
    var refused := UploadCheck(filename, content, supportedText);
    if refused.Some? {
      return Err(refused.value);
    }
    var ingested := IngestDocument(store, filename.value, content, userId, None, docId, now, pointId,
                                   supportedText, parse, chunk, embed);
    match ingested
    case Err(e) =>
      r := Err(IngestFailure(e));
    case Ok(d) =>
      r := Ok(UploadResponse(d.docId, d.filename, d.fileType, d.chunkCount, d.createdAt, d.fileSize));
  }
}
