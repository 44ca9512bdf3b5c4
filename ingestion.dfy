/** The per-request state of `BodyHandlerImpl.BHandler` as a value, and one pure
    transition per callback the request delivers to it. The class `BHandler`
    (module BodyHandler) performs these transitions in place; the proofs about
    whole runs are in module IngestionProofs. */
module Ingestion {
  import opened JavaValues
  import opened Preflight

  const DefaultInitialBodyBufferSize: int := 1024
  const MaxPreallocatedBodyBufferBytes: int := 65535
  const MultipartFormData: string := "multipart/form-data"
  const UrlEncodedForm: string := "application/x-www-form-urlencoded"

  /** The body buffer: its initial capacity and the bytes appended so far. */
  datatype ByteBuffer = ByteBuffer(initialCapacity: int, bytes: seq<byte>)

  /** A multipart part as announced to the upload handler. */
  datatype Part = Part(sizeAvailable: bool, size: int)

  datatype FileUpload = FileUpload(uploadedFileName: string, part: Part)

  /** Where each upload's asynchronous write to the file system stands. */
  datatype WriteStatus = Streaming | Written | WriteFailed

  datatype Throwable = Throwable(message: string, isDecoderException: bool, cause: Option<Throwable>)

  /** The three forms of `context.fail`. */
  datatype Failure =
    | Status(code: int)                                  // fail(int)
    | StatusAndCause(code: int, cause: Option<Throwable>) // fail(int, Throwable)
    | Thrown(error: Throwable)                           // fail(Throwable)

  /** The handler's outward actions, in the order it performs them. */
  datatype Effect =
    | Next                                   // context.next()
    | Fail(failure: Failure)                 // context.fail(...)
    | MakeUploadDir(directory: string)       // existsBlocking / mkdirsBlocking
    | StreamToFile(path: string)             // upload.streamToFileSystem(path)
    | Cancel(upload: nat, cancelled: bool)   // fileUploads[upload].cancel() and what it returned
    | Delete(path: string)                   // fileSystem.delete(path)
    | MergeFormAttributes                    // request.params().addAll(request.formAttributes())
    | SetBody(body: Option<seq<byte>>)       // context.setBody(body)

  datatype State = State(
    cfg: Config,
    contentLength: int,
    isMultipart: bool,
    isUrlEncoded: bool,
    body: Option<ByteBuffer>,
    failed: bool,
    uploadCount: int,
    cleanup: bool,
    ended: bool,
    uploadSize: int,
    fileUploads: seq<FileUpload>,
    writes: seq<WriteStatus>,     // one per file upload (the upload futures)
    expectMultipart: bool,        // the request's flag
    bodyEndHandler: bool,         // a cleanup body-end handler is registered on the context
    trace: seq<Effect>)

  function BodyBytes(body: Option<ByteBuffer>): seq<byte> {
    if body.Some? then body.value.bytes else []
  }

  predicate HasUploadHandler(s: State) { s.isMultipart || s.isUrlEncoded }

  // ----- classification and pre-sizing -----

  datatype ContentKind = ContentKind(isMultipart: bool, isUrlEncoded: bool)

  /** The content type is lower-cased once and prefix-matched; no header means neither. */
  function Classify(contentType: Option<string>): (k: ContentKind)
    ensures !(k.isMultipart && k.isUrlEncoded)
    ensures k.isMultipart <==> contentType.Some? && StartsWith(ToLower(contentType.value), MultipartFormData)
    ensures k.isUrlEncoded <==> contentType.Some? && StartsWith(ToLower(contentType.value), UrlEncodedForm)
  {
    if contentType.None? then ContentKind(false, false)
    else
      var lower := ToLower(contentType.value);
      assert StartsWith(lower, MultipartFormData) ==> lower[..|MultipartFormData|][0] == 'm';
      assert StartsWith(lower, UrlEncodedForm) ==> lower[..|UrlEncodedForm|][0] == 'a';
      ContentKind(StartsWith(lower, MultipartFormData), StartsWith(lower, UrlEncodedForm))
  }

  /** The capacity `initBodyBuffer` asks for. */
  function InitialBodyBufferSize(contentLength: int, bodyLimit: int): (r: int)
    ensures bodyLimit >= -1 ==> 0 <= r <= MaxPreallocatedBodyBufferBytes
    ensures IsInt(bodyLimit) && bodyLimit != -1 ==> r <= bodyLimit
    ensures contentLength < 0 && bodyLimit == -1 ==> r == DefaultInitialBodyBufferSize
    ensures 0 <= contentLength <= MaxPreallocatedBodyBufferBytes && (bodyLimit == -1 || contentLength <= bodyLimit)
            ==> r == contentLength
    ensures contentLength > MaxPreallocatedBodyBufferBytes && (bodyLimit == -1 || bodyLimit >= MaxPreallocatedBodyBufferBytes)
            ==> r == MaxPreallocatedBodyBufferBytes
    // the value in every case: the pre-size, then capped by a set limit
    ensures bodyLimit == -1 && contentLength < 0 ==> r == DefaultInitialBodyBufferSize
    ensures bodyLimit == -1 && contentLength >= 0 ==> r == Min(contentLength, MaxPreallocatedBodyBufferBytes)
    ensures 0 <= bodyLimit && contentLength < 0 ==> r == Min(DefaultInitialBodyBufferSize, bodyLimit)
    ensures 0 <= bodyLimit && contentLength >= 0 ==> r == Min(Min(contentLength, MaxPreallocatedBodyBufferBytes), bodyLimit)
    // a limit below -1 is below every pre-size, and the cast truncates it
    ensures bodyLimit < -1 ==> r == ToInt(bodyLimit)
  {
    var size :=
      if contentLength < 0 then DefaultInitialBodyBufferSize
      else if contentLength > MaxPreallocatedBodyBufferBytes then MaxPreallocatedBodyBufferBytes
      else contentLength;
    if bodyLimit != -1 then ToInt(Min(size, bodyLimit)) else size
  }

  function NewBodyBuffer(s: State): ByteBuffer {
    ByteBuffer(InitialBodyBufferSize(s.contentLength, s.cfg.bodyLimit), [])
  }

  /** The file a part is streamed to: `new File(uploadsDir, uuid).getPath()`. */
  function UploadPath(directory: string, uuid: string): string {
    directory + "/" + uuid
  }

  // ----- construction -----

  /** The BHandler constructor: pre-size the body when a length is known,
      classify the content type, create the uploads directory for forms. */
  function Init(cfg: Config, req: Request, contentLength: int): (r: State)
    ensures r.cfg == cfg && r.contentLength == contentLength
    ensures r.isMultipart == Classify(req.contentType).isMultipart
    ensures r.isUrlEncoded == Classify(req.contentType).isUrlEncoded
    ensures !r.bodyEndHandler
    ensures r.body.Some? <==> contentLength != -1
    ensures r.body.Some? ==> r.body.value == ByteBuffer(InitialBodyBufferSize(contentLength, cfg.bodyLimit), [])
    ensures r.expectMultipart <==> req.isExpectMultipart || HasUploadHandler(r)
    ensures r.trace == if HasUploadHandler(r) && cfg.handleFileUploads then [MakeUploadDir(cfg.uploadsDirectory)] else []
    ensures !r.failed && !r.cleanup && !r.ended && r.uploadSize == 0 && r.uploadCount == 0
    ensures r.fileUploads == [] && r.writes == []
  {
    var kind := Classify(req.contentType);
    var form := kind.isMultipart || kind.isUrlEncoded;
    var initial := State(cfg, contentLength, kind.isMultipart, kind.isUrlEncoded, None,
                         false, 0, false, false, 0, [], [],
                         req.isExpectMultipart || form, false,
                         if form && cfg.handleFileUploads then [MakeUploadDir(cfg.uploadsDirectory)] else []);
    if contentLength != -1 then initial.(body := Some(NewBodyBuffer(initial))) else initial
  }

  // ----- cleanup -----

  /** What `fileUploads[i].cancel()` returns during this callback (false when not given). */
  function Cancelled(cancels: seq<bool>, i: nat): bool {
    i < |cancels| && cancels[i]
  }

  function DisposeOne(uploads: seq<FileUpload>, cancels: seq<bool>, i: nat): seq<Effect>
    requires i < |uploads|
  {
    [Cancel(i, Cancelled(cancels, i))]
      + (if Cancelled(cancels, i) then [] else [Delete(uploads[i].uploadedFileName)])
  }

  /** The effects of the disposal loop over the first `n` uploads. */
  function DisposeUpTo(uploads: seq<FileUpload>, cancels: seq<bool>, n: nat): seq<Effect>
    requires n <= |uploads|
  {
    if n == 0 then [] else DisposeUpTo(uploads, cancels, n - 1) + DisposeOne(uploads, cancels, n - 1)
  }

  /** `cancelAndCleanupFileUploads`: the guard flips on the first call; only that
      call, and only when file uploads are handled, walks the uploads. */
  function Cleanup(s: State, cancels: seq<bool>): State {
    s.(cleanup := true, trace := s.trace + Disposal(s, cancels))
  }

  /** The effects of one `cancelAndCleanupFileUploads` call. */
  function Disposal(s: State, cancels: seq<bool>): seq<Effect> {
    if !s.cleanup && s.cfg.handleFileUploads then DisposeUpTo(s.fileUploads, cancels, |s.fileUploads|) else []
  }

  function Emit(s: State, e: Effect): State {
    s.(trace := s.trace + [e])
  }

  // ----- callbacks -----

  /** `handle(Buffer)`: one chunk of the request body. */
  function OnChunk(s: State, data: seq<byte>, cancels: seq<bool>): State {
    if s.failed then s
    else
      var size := s.uploadSize + |data|;
      if s.cfg.bodyLimit != -1 && size > s.cfg.bodyLimit then
        Emit(Cleanup(s.(uploadSize := size, failed := true), cancels), Fail(Status(413)))
      else if !s.isMultipart then s.(uploadSize := size, body := Some(Appended(s, data)))
      else s.(uploadSize := size)
  }

  /** The body buffer after `data` is appended, created first if there is none yet. */
  function Appended(s: State, data: seq<byte>): ByteBuffer {
    var buffer := if s.body.None? then NewBodyBuffer(s) else s.body.value;
    buffer.(bytes := buffer.bytes + data)
  }

  /** A part that announces its size is refused before it starts when the bytes
      counted so far plus that size (a Java `long` sum) exceed the limit. */
  predicate PartTooLarge(s: State, part: Part) {
    s.cfg.bodyLimit != -1 && part.sizeAvailable && WrapLong(s.uploadSize + part.size) > s.cfg.bodyLimit
  }

  /** The upload handler: a multipart part begins; `uuid` is the fresh file name. */
  function OnUpload(s: State, part: Part, uuid: string, cancels: seq<bool>): State {
    if PartTooLarge(s, part) then
      Emit(Cleanup(s.(failed := true), cancels), Fail(Status(413)))
    else if s.cfg.handleFileUploads then
      var path := UploadPath(s.cfg.uploadsDirectory, uuid);
      s.(uploadCount := s.uploadCount + 1,
         fileUploads := s.fileUploads + [FileUpload(path, part)],
         writes := s.writes + [Streaming],
         trace := s.trace + [StreamToFile(path)])
    else s
  }

  datatype WriteOutcome = Succeeded | FailedWith(cause: Throwable)

  /** The completion of upload `index`'s file write (the `onComplete` callback). */
  function OnWriteComplete(s: State, index: nat, outcome: WriteOutcome, cancels: seq<bool>): State {
    var t := s.(writes := if index < |s.writes| then s.writes[index := if outcome.Succeeded? then Written else WriteFailed]
                          else s.writes);
    if outcome.Succeeded? then UploadEnded(t, cancels)
    else Emit(Cleanup(t, cancels), Fail(Thrown(outcome.cause)))
  }

  /** `uploadEnded`. */
  function UploadEnded(s: State, cancels: seq<bool>): State {
    var t := s.(uploadCount := s.uploadCount - 1);
    if t.ended && t.uploadCount == 0 then DoEnd(t, cancels) else t
  }

  /** `end`: the request's end handler. */
  function End(s: State, cancels: seq<bool>): State {
    var t := s.(ended := true);
    if t.uploadCount == 0 then DoEnd(t, cancels) else t
  }

  /** What `doEnd` hands on before `next()`: the form attributes when asked, then the body. */
  function Publication(s: State): seq<Effect> {
    (if s.cfg.mergeFormAttributes && s.expectMultipart then [MergeFormAttributes] else [])
      + [SetBody(if s.body.Some? then Some(s.body.value.bytes) else None)]
  }

  /** `doEnd`: clean up after a failure, or register the cleanup for the end of
      the response if asked, publish, release the body and continue. */
  function DoEnd(s: State, cancels: seq<bool>): State {
    if s.failed then Cleanup(s, cancels)
    else
      s.(bodyEndHandler := s.bodyEndHandler || s.cfg.deleteUploadedFilesOnEnd,
         body := None,
         trace := s.trace + Publication(s) + [Next])
  }

  /** The request's exception handler. */
  function OnException(s: State, error: Throwable, cancels: seq<bool>): State {
    var t := Cleanup(s, cancels);
    if error.isDecoderException then Emit(t, Fail(StatusAndCause(400, error.cause)))
    else Emit(t, Fail(Thrown(error)))
  }

  /** The response's body end, which runs the cleanup handler if `doEnd` registered one. */
  function OnBodyEnd(s: State, cancels: seq<bool>): State {
    if s.bodyEndHandler then Cleanup(s, cancels) else s
  }

  // ----- runs -----

  /** A callback, with the values `cancel()` would return if it ends up cleaning up. */
  datatype Event =
    | Chunk(data: seq<byte>, cancels: seq<bool>)
    | UploadBegin(part: Part, uuid: string, cancels: seq<bool>)
    | WriteComplete(upload: nat, outcome: WriteOutcome, cancels: seq<bool>)
    | RequestEnd(cancels: seq<bool>)
    | RequestException(error: Throwable, cancels: seq<bool>)
    | BodyEnd(cancels: seq<bool>)

  function Step(s: State, e: Event): State {
    match e
    case Chunk(data, c) => OnChunk(s, data, c)
    case UploadBegin(part, uuid, c) => OnUpload(s, part, uuid, c)
    case WriteComplete(i, outcome, c) => OnWriteComplete(s, i, outcome, c)
    case RequestEnd(c) => End(s, c)
    case RequestException(error, c) => OnException(s, error, c)
    case BodyEnd(c) => OnBodyEnd(s, c)
  }

  /** What the request can deliver: body chunks and parts only before its end,
      parts only to a form handler, and one completion per upload write. */
  predicate Enabled(s: State, e: Event) {
    match e
    case Chunk(_, _) => !s.ended
    case UploadBegin(_, _, _) => !s.ended && HasUploadHandler(s)
    case WriteComplete(i, _, _) => i < |s.writes| && s.writes[i] == Streaming
    case RequestEnd(_) => !s.ended
    case RequestException(_, _) => true
    case BodyEnd(_) => true
  }

  function Run(s: State, es: seq<Event>): State
    decreases |es|
  {
    if es == [] then s else Run(Step(s, es[0]), es[1..])
  }

  predicate ValidRun(s: State, es: seq<Event>)
    decreases |es|
  {
    es == [] || (Enabled(s, es[0]) && ValidRun(Step(s, es[0]), es[1..]))
  }
}
