/** `BodyHandlerImpl.BHandler`: the per-request object whose fields the request's
    callbacks update in place. Every method leaves the object in the state the
    matching transition of module Ingestion computes from the state before. */
module BodyHandler {
  import opened JavaValues
  import opened Preflight
  import opened Ingestion

  class BHandler {
    const cfg: Config
    const contentLength: int
    const isMultipart: bool
    const isUrlEncoded: bool
    var body: Option<ByteBuffer>
    var failed: bool
    var uploadCount: int
    var cleanup: bool
    var ended: bool
    var uploadSize: int
    /** The routing context's file uploads. */
    var fileUploads: seq<FileUpload>
    /** The status of each upload's file write (held by its future). */
    ghost var writes: seq<WriteStatus>
    /** The request's expect-multipart flag. */
    var expectMultipart: bool
    /** Whether the cleanup body-end handler is registered on the context. */
    var bodyEndHandler: bool
    /** The outward actions performed so far. */
    ghost var trace: seq<Effect>

    /** The object's fields as a value of Ingestion.State. */
    ghost function Model(): State
      reads this
    {
      State(cfg, contentLength, isMultipart, isUrlEncoded, body, failed, uploadCount, cleanup,
            ended, uploadSize, fileUploads, writes, expectMultipart, bodyEndHandler, trace)
    }

    constructor (cfg: Config, req: Request, contentLength: int)
      ensures Model() == Init(cfg, req, contentLength)
    {
      this.cfg := cfg;
      this.contentLength := contentLength;
      var kind := Classify(req.contentType);
      isMultipart := kind.isMultipart;
      isUrlEncoded := kind.isUrlEncoded;
      body, failed, uploadCount, cleanup, ended, uploadSize := None, false, 0, false, false, 0;
      fileUploads, writes := [], [];
      expectMultipart, bodyEndHandler, trace := req.isExpectMultipart, false, [];
      new;
      if contentLength != -1 {
        InitBodyBuffer();
      }
      if isMultipart || isUrlEncoded {
        expectMultipart := true;
        if cfg.handleFileUploads {
          trace := trace + [MakeUploadDir(cfg.uploadsDirectory)];
        }
      }
    }

    method InitBodyBuffer()
      modifies this`body
      ensures Model() == old(Model()).(body := Some(ByteBuffer(InitialBodyBufferSize(contentLength, cfg.bodyLimit), [])))
    {
      var size: int;
      if contentLength < 0 {
        size := DefaultInitialBodyBufferSize;
      } else if contentLength > MaxPreallocatedBodyBufferBytes {
        size := MaxPreallocatedBodyBufferBytes;
      } else {
        size := contentLength;
      }
      if cfg.bodyLimit != -1 {
        size := ToInt(Min(size, cfg.bodyLimit));
      }
      body := Some(ByteBuffer(size, []));
    }

    /** `handle(Buffer)`. */
    method Handle(buff: seq<byte>, cancels: seq<bool>)
      modifies this`uploadSize, this`failed, this`body, this`cleanup, this`trace
      ensures Model() == OnChunk(old(Model()), buff, cancels)
    {
      if failed {
        return;
      }
      uploadSize := uploadSize + |buff|;
      if cfg.bodyLimit != -1 && uploadSize > cfg.bodyLimit {
        failed := true;
        CancelAndCleanupFileUploads(cancels);
        trace := trace + [Fail(Status(413))];
      } else if !isMultipart {
        if body.None? {
          InitBodyBuffer();
        }
        body := Some(body.value.(bytes := body.value.bytes + buff));
      }
    }

    /** The upload handler installed for forms. */
    method OnUploadBegin(part: Part, uuid: string, cancels: seq<bool>)
      modifies this`failed, this`cleanup, this`trace, this`uploadCount, this`fileUploads, this`writes
      ensures Model() == OnUpload(old(Model()), part, uuid, cancels)
    {
      if cfg.bodyLimit != -1 && part.sizeAvailable {
        var size := WrapLong(uploadSize + part.size);
        if size > cfg.bodyLimit {
          failed := true;
          ghost var s1 := Model();
          CancelAndCleanupFileUploads(cancels);
          assert Model() == Cleanup(s1, cancels);
          trace := trace + [Fail(Status(413))];
          return;
        }
      }
      if cfg.handleFileUploads {
        uploadCount := uploadCount + 1;
        var path := UploadPath(cfg.uploadsDirectory, uuid);
        fileUploads := fileUploads + [FileUpload(path, part)];
        writes := writes + [Streaming];
        trace := trace + [StreamToFile(path)];
      }
    }

    /** The completion callback of upload `index`'s file write. */
    method OnUploadWritten(index: nat, outcome: WriteOutcome, cancels: seq<bool>)
      modifies this`writes, this`uploadCount, this`cleanup, this`trace, this`bodyEndHandler, this`body
      ensures Model() == OnWriteComplete(old(Model()), index, outcome, cancels)
    {
      if index < |writes| {
        writes := writes[index := if outcome.Succeeded? then Written else WriteFailed];
      }
      if outcome.Succeeded? {
        UploadEnded(cancels);
      } else {
        CancelAndCleanupFileUploads(cancels);
        trace := trace + [Fail(Thrown(outcome.cause))];
      }
    }

    method UploadEnded(cancels: seq<bool>)
      modifies this`uploadCount, this`cleanup, this`trace, this`bodyEndHandler, this`body
      ensures Model() == Ingestion.UploadEnded(old(Model()), cancels)
    {
      uploadCount := uploadCount - 1;
      if ended && uploadCount == 0 {
        DoEnd(cancels);
      }
    }

    method End(cancels: seq<bool>)
      modifies this`ended, this`cleanup, this`trace, this`bodyEndHandler, this`body
      ensures Model() == Ingestion.End(old(Model()), cancels)
    {
      ended := true;
      if uploadCount == 0 {
        DoEnd(cancels);
      }
    }

    method DoEnd(cancels: seq<bool>)
      modifies this`cleanup, this`trace, this`bodyEndHandler, this`body
      ensures Model() == Ingestion.DoEnd(old(Model()), cancels)
    {
      if failed {
        CancelAndCleanupFileUploads(cancels);
        return;
      }
      ghost var published := Publication(Model());
      if cfg.deleteUploadedFilesOnEnd {
        bodyEndHandler := true;
      }
      if cfg.mergeFormAttributes && expectMultipart {
        trace := trace + [MergeFormAttributes];
      }
      trace := trace + [SetBody(if body.Some? then Some(body.value.bytes) else None)];
      body := None;
      trace := trace + [Next];
      assert trace == old(trace) + published + [Next];
    }

    /** The request's exception handler. */
    method OnRequestException(error: Throwable, cancels: seq<bool>)
      modifies this`cleanup, this`trace
      ensures Model() == OnException(old(Model()), error, cancels)
    {
      CancelAndCleanupFileUploads(cancels);
      if error.isDecoderException {
        trace := trace + [Fail(StatusAndCause(400, error.cause))];
      } else {
        trace := trace + [Fail(Thrown(error))];
      }
    }

    /** The body-end handler `doEnd` registers when uploads are deleted after use. */
    method OnResponseBodyEnd(cancels: seq<bool>)
      modifies this`cleanup, this`trace
      ensures Model() == OnBodyEnd(old(Model()), cancels)
    {
      if bodyEndHandler {
        CancelAndCleanupFileUploads(cancels);
      }
    }

    /** `cancelAndCleanupFileUploads`. */
    method CancelAndCleanupFileUploads(cancels: seq<bool>)
      modifies this`cleanup, this`trace
      ensures Model() == Cleanup(old(Model()), cancels)
    {
      var first := !cleanup;   // cleanup.compareAndSet(false, true)
      cleanup := true;
      if first && cfg.handleFileUploads {
        var i := 0;
        while i < |fileUploads|
          invariant 0 <= i <= |fileUploads|
          invariant trace == old(trace) + DisposeUpTo(fileUploads, cancels, i)
          modifies this`trace
        {
          ghost var before := trace;
          var cancelled := Cancelled(cancels, i);   // fileUpload.cancel()
          trace := trace + [Cancel(i, cancelled)];
          if !cancelled {
            trace := trace + [Delete(fileUploads[i].uploadedFileName)];
          }
          assert trace == before + DisposeOne(fileUploads, cancels, i);
          i := i + 1;
        }
      }
    }

    /** The wiring of `handle(RoutingContext)` and the constructor: which method each request callback reaches. */
    method Deliver(e: Event)
      modifies this
      ensures Model() == Step(old(Model()), e)
    {
      match e
      case Chunk(data, c) => Handle(data, c);
      case UploadBegin(part, uuid, c) => OnUploadBegin(part, uuid, c);
      case WriteComplete(i, outcome, c) => OnUploadWritten(i, outcome, c);
      case RequestEnd(c) => End(c);
      case RequestException(error, c) => OnRequestException(error, c);
      case BodyEnd(c) => OnResponseBodyEnd(c);
    }
  }
}
