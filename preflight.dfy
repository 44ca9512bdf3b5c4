/** The body handler's configuration and the decision `BodyHandlerImpl.handle`
    takes from the request headers before any byte of the body is read. */
module Preflight {
  import opened JavaValues

  /** The handler's configuration fields (set through its fluent setters). */
  datatype Config = Config(
    bodyLimit: int,                 // -1 means unlimited
    handleFileUploads: bool,
    uploadsDirectory: string,
    mergeFormAttributes: bool,
    deleteUploadedFilesOnEnd: bool,
    preallocateBodyBuffer: bool)

  /** A limit is either -1 (unlimited) or a byte count. */
  predicate ValidConfig(cfg: Config) { cfg.bodyLimit == -1 || 0 <= cfg.bodyLimit <= MaxLong }

  datatype HttpVersion = Http10 | Http11 | Http2

  /** What the handler reads of the request: its version, the headers it looks at
      (a header is `None` when absent) and two request flags. */
  datatype Request = Request(
    version: HttpVersion,
    contentLength: Option<string>,
    transferEncodingPresent: bool,
    expectation: Option<string>,
    contentType: Option<string>,
    isEnded: bool,
    isExpectMultipart: bool)

  /** The declared body length: -1 when the header is missing, empty, not a
      Java `long` or negative. */
  function ParseContentLengthHeader(header: Option<string>): (r: int)
    ensures r == -1 || 0 <= r <= MaxLong
    ensures header.None? || header == Some("") ==> r == -1
    ensures r != -1 ==> header.Some? && ParseLong(header.value) == Some(r)
    ensures header.Some? && ParseLong(header.value).Some? && ParseLong(header.value).value >= 0
            ==> r == ParseLong(header.value).value
  {
    if header.None? || header.value == "" then -1
    else
      match ParseLong(header.value)
      case None => -1
      case Some(v) => if v < 0 then -1 else v
  }

  /** A canonical decimal length header is read back as its value; a negative one is unknown. */
  lemma ContentLengthOfDecimal(n: nat)
    requires n <= MaxLong
    ensures ParseContentLengthHeader(Some(ToDecimal(n))) == n
    ensures ParseContentLengthHeader(Some("-" + ToDecimal(n))) == (if n == 0 then 0 else -1)
  {
    ParseLongOfDecimal(n);
    DecimalRoundTrip(n);
  }

  function DeclaredLength(req: Request): int {
    ParseContentLengthHeader(req.contentLength)
  }

  /** HTTP/2 never sends `transfer-encoding`: its frames are the chunks. */
  predicate HasTransferEncoding(req: Request) {
    req.version == Http2 || req.transferEncodingPresent
  }

  predicate HasBodyIndication(req: Request) {
    HasTransferEncoding(req) || DeclaredLength(req) != -1
  }

  /** The declared length alone already exceeds a configured limit. */
  predicate DeclaredTooLarge(cfg: Config, req: Request) {
    cfg.bodyLimit != -1 && DeclaredLength(req) != -1 && DeclaredLength(req) > cfg.bodyLimit
  }

  /** The only expectation the handler knows (section 5.1.1 of RFC 7231). */
  predicate IsContinueExpectation(value: string) {
    EqualsIgnoreCase(value, "100-continue")
  }

  datatype Outcome =
    | Skip                     // context.next(); no body handler is attached
    | Reject(status: int)      // context.fail(status) before any chunk is read
    | Ingest(writeContinue: bool, handlerLength: int, subscribe: bool)
      // a BHandler is created with `handlerLength`; the response writes 100-continue
      // first if `writeContinue`; the request is resumed with the handler and its
      // end handler if `subscribe`
    | Reroute(mergeForm: bool) // second visit: merge form attributes if asked, then context.next()

  /** `handle(RoutingContext)`; `seen` is whether the context has already visited the handler. */
  function Handle(cfg: Config, req: Request, seen: bool): (o: Outcome)
    // a second visit never ingests again
    ensures o.Reroute? <==> seen
    ensures o.Reroute? ==> (o.mergeForm <==> cfg.mergeFormAttributes && req.isExpectMultipart)
    // no body indication: straight to the next handler
    ensures o.Skip? <==> !seen && !HasBodyIndication(req)
    // the limit guard
    ensures o == Reject(413) <==> !seen && DeclaredTooLarge(cfg, req)
    ensures o.Ingest? ==> cfg.bodyLimit == -1 || DeclaredLength(req) == -1 || DeclaredLength(req) <= cfg.bodyLimit
    // expectations
    ensures o == Reject(417) <==>
            !seen && HasBodyIndication(req) && !DeclaredTooLarge(cfg, req) && req.expectation.Some?
            && !IsContinueExpectation(req.expectation.value)
    ensures o.Reject? ==> o.status == 413 || o.status == 417
    ensures o.Ingest? ==> req.expectation.None? || IsContinueExpectation(req.expectation.value)
    ensures o.Ingest? ==> (o.writeContinue <==> req.expectation.Some? && req.version != Http10)
    // the created handler
    ensures o.Ingest? ==> o.handlerLength == (if cfg.preallocateBodyBuffer then DeclaredLength(req) else -1)
    ensures o.Ingest? ==> (o.subscribe <==> !req.isEnded)
  {
    if seen then
      Reroute(cfg.mergeFormAttributes && req.isExpectMultipart)
    else
      var parsed := DeclaredLength(req);
      if !HasTransferEncoding(req) && parsed == -1 then Skip
      else if DeclaredTooLarge(cfg, req) then Reject(413)
      else if req.expectation.Some? && !IsContinueExpectation(req.expectation.value) then Reject(417)
      else
        Ingest(req.expectation.Some? && req.version != Http10,
               if cfg.preallocateBodyBuffer then parsed else -1,
               !req.isEnded)
  }

}
