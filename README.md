# Vert.x Web `BodyHandlerImpl`: a verified model of request-body ingestion

The body handler of Vert.x Web reads an HTTP request's body before the next route handler runs. It works in two stages:

- **Preflight.** Looking only at the headers and its configuration, the handler decides whether a body is present, whether the declared `Content-Length` exceeds the body limit (413), and whether the `Expect` header can be met (417 otherwise; `100-continue` is answered). On a reroute it skips ingestion.
- **Ingestion.** A per-request `BHandler` object does the rest:
  - It accumulates the body chunks, counting bytes against the limit.
  - It streams multipart file uploads to disk and tracks pending uploads with a counter.
  - It cleans up uploads through a one-shot guard.
  - Once the request has ended, every upload is written and nothing failed, it publishes the body and calls `next()`, exactly once. After a 413 or a failed write it never calls `next()`.

The project has five modules:

| module | contents |
|---|---|
| `JavaValues` (java_values.dfy) | The Java semantics the handler relies on: `long` wrap-around, the `(int)` cast, `Long.parseLong` in radix 10, ASCII `toLowerCase`/`equalsIgnoreCase`. |
| `Preflight` (preflight.dfy) | The configuration, `parseContentLengthHeader`, and the decision taken by `handle(RoutingContext)`, as pure functions. |
| `Ingestion` (ingestion.dfy) | The `BHandler` state as a value, with one pure transition per callback (chunk, upload begin, write completion, end, exception, body end). `Run` replays a sequence of callbacks. |
| `BodyHandler` (bhandler.dfy) | The class `BHandler`, whose methods update its fields in place just as the Java methods do. Each method is proved to leave the object in the state the matching `Ingestion` transition computes; `CancelAndCleanupFileUploads` keeps the source's loop. |
| `IngestionProofs` (ingestion_proofs.dfy) | An invariant kept by every callback, and the properties stated over every run that the preflight admitted. |

The handler's outward actions are recorded in a ghost trace of `Effect`s, in order: `next()`, `fail(...)`, the directory creation, streaming to a file, `cancel()` with its result, file deletion, the form-attribute merge, and `setBody`. Whole-run properties are stated over that trace.

## Model

| member | source | states |
|---|---|---|
| JavaValues.WrapLong | vertx-web/src/main/java/io/vertx/ext/web/handler/impl/BodyHandlerImpl.java:239 | The `long` sum lands in the signed 64-bit range, is congruent to the exact sum modulo 2^64 (two's-complement wrap-around), and is the identity within the range. |
| JavaValues.ToInt | vertx-web/src/main/java/io/vertx/ext/web/handler/impl/BodyHandlerImpl.java:288 | The `(int)` cast lands in the signed 32-bit range, keeps the value modulo 2^32 (it drops the high bits), and is the identity within the range. |
| JavaValues.ParseLong | vertx-web/src/main/java/io/vertx/ext/web/handler/impl/BodyHandlerImpl.java:188 | A parsed value fits a `long`. It comes from an optional sign followed by at least one digit. It is negative only after `-`. See ParseLongOfDigits for the value of every input of that form. |
| JavaValues.ParseLongOfDigits | vertx-web/src/main/java/io/vertx/ext/web/handler/impl/BodyHandlerImpl.java:188 | Every non-empty digit string, leading zeros included, parses to its decimal value, unsigned or after `+`, when that value is at most `Long.MAX_VALUE`. After `-` it parses to the negated value when that is at least `Long.MIN_VALUE`. Out of range, it is rejected (`NumberFormatException`). |
| JavaValues.DecimalRoundTrip | vertx-web/src/main/java/io/vertx/ext/web/handler/impl/BodyHandlerImpl.java:188 | The canonical decimal rendering of `n` is a non-empty digit string whose value is `n`. |
| JavaValues.ParseLongOfDecimal | vertx-web/src/main/java/io/vertx/ext/web/handler/impl/BodyHandlerImpl.java:188 | Unsigned and `+`-signed renderings of a value up to `Long.MAX_VALUE` parse back to it. A `-` rendering parses to the negation exactly when it fits, and is rejected otherwise. |
| Preflight.ParseContentLengthHeader | vertx-web/src/main/java/io/vertx/ext/web/handler/impl/BodyHandlerImpl.java:182-193 | The result is -1 or a non-negative `long`. A missing or empty header gives -1. Any other result is what `parseLong` returned. Every non-negative parse is returned as is. |
| Preflight.ContentLengthOfDecimal | vertx-web/src/main/java/io/vertx/ext/web/handler/impl/BodyHandlerImpl.java:182-193 | A canonical length header reads back as its value. A negative one reads as -1 ("-0" reads as 0). |
| Preflight.Handle | vertx-web/src/main/java/io/vertx/ext/web/handler/impl/BodyHandlerImpl.java:77-144 | Each outcome holds exactly under its condition (iff): reroute on a second visit (merging only when `mergeFormAttributes && isExpectMultipart`); skip without a body indication, HTTP/2 counting as transfer-encoded; 413 when the declared length exceeds the limit; 417 for an expectation other than `100-continue`. An ingest writes continue iff there is an expectation and the version is not HTTP/1.0, gets the declared length only when pre-allocating, and subscribes iff the request has not ended. |
| Ingestion.Classify | vertx-web/src/main/java/io/vertx/ext/web/handler/impl/BodyHandlerImpl.java:221-229 | The request is multipart (resp. url-encoded) iff the lower-cased content type starts with `multipart/form-data` (resp. `application/x-www-form-urlencoded`). Never both; no header means neither. |
| Ingestion.InitialBodyBufferSize | vertx-web/src/main/java/io/vertx/ext/web/handler/impl/BodyHandlerImpl.java:277-292 | The size is within 0..65535 for a valid limit. With no limit it is 1024 for an unknown length and `min(length, 65535)` otherwise. A non-negative limit caps either value: `min(1024, limit)` or `min(min(length, 65535), limit)`. A limit below -1 is the minimum, and the size is that limit cast to `int`. |
| Ingestion.Init | vertx-web/src/main/java/io/vertx/ext/web/handler/impl/BodyHandlerImpl.java:209-235 | The handler keeps the configuration and the length it was given. It is multipart (resp. url-encoded) exactly as `Classify` says of the request's content type. The body buffer exists iff a length is known, and when it exists it is empty and sized by `InitialBodyBufferSize`. `expectMultipart` is set iff the request set it or the request is a form. The upload directory is created iff the request is a form and uploads are handled. No body-end handler is registered, and nothing has been counted, latched or recorded yet. |
| BodyHandler.BHandler.constructor | vertx-web/src/main/java/io/vertx/ext/web/handler/impl/BodyHandlerImpl.java:209-235 | The new object's fields are the state `Init` describes. |
| BodyHandler.BHandler.InitBodyBuffer | vertx-web/src/main/java/io/vertx/ext/web/handler/impl/BodyHandlerImpl.java:277-292 | Only the body changes: it becomes an empty buffer with the `InitialBodyBufferSize` capacity. |
| BodyHandler.BHandler.Handle | vertx-web/src/main/java/io/vertx/ext/web/handler/impl/BodyHandlerImpl.java:301-321 | The new state is `OnChunk` of the old one; see ChunkAccepted, ChunkRejected and FailedIgnoresChunks for what that means. |
| BodyHandler.BHandler.OnUploadBegin | vertx-web/src/main/java/io/vertx/ext/web/handler/impl/BodyHandlerImpl.java:236-253 | The new state is `OnUpload` of the old one; see UploadBegins. |
| BodyHandler.BHandler.OnUploadWritten | vertx-web/src/main/java/io/vertx/ext/web/handler/impl/BodyHandlerImpl.java:254-261 | The new state is `OnWriteComplete` of the old one. On success the upload ends; on failure it cleans up and reports the cause, and `uploadCount` and `failed` are left as they are. |
| BodyHandler.BHandler.UploadEnded | vertx-web/src/main/java/io/vertx/ext/web/handler/impl/BodyHandlerImpl.java:323-329 | The counter goes down by one, and `doEnd` runs iff the request has ended and the counter reaches 0. |
| BodyHandler.BHandler.End | vertx-web/src/main/java/io/vertx/ext/web/handler/impl/BodyHandlerImpl.java:331-340 | `ended` is latched, and `doEnd` runs iff no upload is pending. |
| BodyHandler.BHandler.DoEnd | vertx-web/src/main/java/io/vertx/ext/web/handler/impl/BodyHandlerImpl.java:342-362 | The new state is `DoEnd` of the old one; see DoEndOutcome. |
| BodyHandler.BHandler.OnRequestException | vertx-web/src/main/java/io/vertx/ext/web/handler/impl/BodyHandlerImpl.java:266-274 | The new state is `OnException` of the old one; see ExceptionOutcome. |
| BodyHandler.BHandler.OnResponseBodyEnd | vertx-web/src/main/java/io/vertx/ext/web/handler/impl/BodyHandlerImpl.java:349-351 | The handler registered by `doEnd` runs the cleanup; with no handler registered, nothing changes. |
| BodyHandler.BHandler.CancelAndCleanupFileUploads | vertx-web/src/main/java/io/vertx/ext/web/handler/impl/BodyHandlerImpl.java:367-381 | The guard is set. Only when the guard was clear and uploads are handled does the loop run: for each upload in order it records `cancel()`, then a delete when `cancel()` returned false (the loop invariant ties the trace to the first `i` uploads). |
| BodyHandler.BHandler.Deliver | vertx-web/src/main/java/io/vertx/ext/web/handler/impl/BodyHandlerImpl.java:127-135 | Each request callback reaches the method the constructor and `handle(RoutingContext)` installed for it; the new state is `Step` of the old one. |
| IngestionProofs.DisposeCancelsOnce | vertx-web/src/main/java/io/vertx/ext/web/handler/impl/BodyHandlerImpl.java:369-379 | The disposal loop over the first `n` uploads asks each of them to cancel exactly once, asks no other upload, and never calls `next()`. |
| IngestionProofs.DisposeDeletes | vertx-web/src/main/java/io/vertx/ext/web/handler/impl/BodyHandlerImpl.java:371-377 | The loop deletes a path iff some upload among the first `n` has that file name and its `cancel()` returned false. |
| IngestionProofs.CleanupFrame | vertx-web/src/main/java/io/vertx/ext/web/handler/impl/BodyHandlerImpl.java:367-381 | Cleanup changes only the guard and the trace, and only extends the trace. With the guard already set it changes nothing. Without upload handling it adds nothing. Everything it adds is a cancel or a delete. |
| IngestionProofs.CleanupCancelsEach | vertx-web/src/main/java/io/vertx/ext/web/handler/impl/BodyHandlerImpl.java:368-371 | A cleanup adds one `cancel()` for upload `i` iff the guard was clear, uploads are handled and upload `i` exists; otherwise it adds none. |
| IngestionProofs.CleanupDeletes | vertx-web/src/main/java/io/vertx/ext/web/handler/impl/BodyHandlerImpl.java:367-381 | The first cleanup deletes exactly the files of the uploads whose `cancel()` returned false. |
| IngestionProofs.CleanupNoNext | vertx-web/src/main/java/io/vertx/ext/web/handler/impl/BodyHandlerImpl.java:367-381 | A cleanup never calls `next()`. |
| IngestionProofs.InitInv | vertx-web/src/main/java/io/vertx/ext/web/handler/impl/BodyHandlerImpl.java:209-235 | A freshly constructed handler satisfies the invariant `Inv`, provided the limit is -1 or non-negative. |
| IngestionProofs.StepInv | vertx-web/src/main/java/io/vertx/ext/web/handler/impl/BodyHandlerImpl.java:236-381 | Every callback the request can deliver keeps `Inv`. `Inv` states: the counter equals the number of uploads not yet written; the bytes counted are within the limit unless `failed`; `failed` iff 413 was reported; `failed` implies cleanup; cancels happen at most once per upload, and none before cleanup; `next()` was called once iff the request ended with no upload pending and no failure, and never otherwise; until then a plain body holds exactly the bytes counted; afterwards the body is released. |
| IngestionProofs.RunInv | vertx-web/src/main/java/io/vertx/ext/web/handler/impl/BodyHandlerImpl.java:236-381 | `Inv` holds after any valid sequence of callbacks. |
| IngestionProofs.StepFollows | vertx-web/src/main/java/io/vertx/ext/web/handler/impl/BodyHandlerImpl.java:236-381 | No callback changes the configuration or classification, clears `cleanup` or `ended`, or rewrites the trace. Once the guard is set, no callback adds a cancel or delete. |
| IngestionProofs.RunFollows | vertx-web/src/main/java/io/vertx/ext/web/handler/impl/BodyHandlerImpl.java:236-381 | The same holds over any sequence of callbacks. |
| IngestionProofs.RunAppend | vertx-web/src/main/java/io/vertx/ext/web/handler/impl/BodyHandlerImpl.java:127-135 | Delivering `a + b` means delivering `a`, then `b`; a run is valid iff both parts are. |
| IngestionProofs.Reachable | vertx-web/src/main/java/io/vertx/ext/web/handler/impl/BodyHandlerImpl.java:127-135 | Every state reached by a handler the preflight created satisfies `Inv`. |
| IngestionProofs.CompletionGate | vertx-web/src/main/java/io/vertx/ext/web/handler/impl/BodyHandlerImpl.java:323-362 | `next()` is called at most once. It has been called iff the request has ended, every upload's file was written, and nothing failed. |
| IngestionProofs.FailedWriteBlocksNext | vertx-web/src/main/java/io/vertx/ext/web/handler/impl/BodyHandlerImpl.java:254-261 | After a failed file write, `uploadCount` stays positive and `next()` is never called. |
| IngestionProofs.UploadCounter | vertx-web/src/main/java/io/vertx/ext/web/handler/impl/BodyHandlerImpl.java:249-329 | `uploadCount` lies between 0 and the number of recorded uploads and equals the number of uploads not yet successfully written; there is one write per upload. |
| IngestionProofs.LimitEnforced | vertx-web/src/main/java/io/vertx/ext/web/handler/impl/BodyHandlerImpl.java:237-310 | `failed` iff 413 was reported. Without a failure, the bytes counted and the bytes held are within the limit. A request that got 413 never reaches `next()`. A multipart body holds no bytes. |
| IngestionProofs.CleanupAtMostOnce | vertx-web/src/main/java/io/vertx/ext/web/handler/impl/BodyHandlerImpl.java:368 | No upload is asked to cancel twice, and none is asked before the guard is set. |
| IngestionProofs.LateUploadNeverDisposed | vertx-web/src/main/java/io/vertx/ext/web/handler/impl/BodyHandlerImpl.java:247-368 | An upload that begins after the guard was set is still recorded, but nothing afterwards cancels or deletes anything. |
| IngestionProofs.UploadBegins | vertx-web/src/main/java/io/vertx/ext/web/handler/impl/BodyHandlerImpl.java:237-253 | A part whose announced size takes the `long` sum past the limit is refused with 413: it is neither counted nor recorded. The trace gets exactly the cleanup's cancels and deletes and then the 413, and nothing but `failed`, the guard and the trace changes. Otherwise, with uploads handled, the counter goes up by exactly one and one record, one pending write and one stream action are added, and nothing else changes. Without upload handling nothing changes. |
| IngestionProofs.DoEndOutcome | vertx-web/src/main/java/io/vertx/ext/web/handler/impl/BodyHandlerImpl.java:342-362 | After a failure, `doEnd` only cleans up and does not call `next()`. Otherwise it releases the body, registers the body-end cleanup iff uploads are deleted on end, and merges form attributes iff `mergeFormAttributes && expectMultipart`. It adds exactly the optional form-attribute merge, `setBody` of the buffer's bytes and `next()`, in that order, so `next()` is called exactly once more. It disposes of no upload and leaves the guard alone (the uploads are cleaned up only later, at the response's body end), and nothing but the body, the body-end handler and the trace changes. |
| IngestionProofs.ExceptionOutcome | vertx-web/src/main/java/io/vertx/ext/web/handler/impl/BodyHandlerImpl.java:266-274 | The exception handler cleans up, then reports 400 with the cause for a decoder error and the exception itself otherwise. Nothing else changes, and `next()` is not called. |
| IngestionProofs.ChunkAccepted | vertx-web/src/main/java/io/vertx/ext/web/handler/impl/BodyHandlerImpl.java:305-319 | A chunk within the limit is counted and, unless the request is multipart (url-encoded included), appended, the buffer being allocated first when there is none; nothing else changes. |
| IngestionProofs.ChunkRejected | vertx-web/src/main/java/io/vertx/ext/web/handler/impl/BodyHandlerImpl.java:305-310 | The first chunk past the limit is counted but not appended. It latches `failed`, cleans up and reports 413, and changes nothing else. |
| IngestionProofs.FailedIgnoresChunks | vertx-web/src/main/java/io/vertx/ext/web/handler/impl/BodyHandlerImpl.java:302-304 | Once `failed` is latched, any number of chunks change nothing, so the count stops growing. |
| IngestionProofs.FeedChunks | vertx-web/src/main/java/io/vertx/ext/web/handler/impl/BodyHandlerImpl.java:301-321 | For a plain body, chunks whose total stays within the limit grow the body by exactly their concatenation and report nothing; a buffer exists afterwards iff one existed before or some chunk arrived. Otherwise `failed` is latched with 413. |
| IngestionProofs.PlainBodyDelivered | vertx-web/src/main/java/io/vertx/ext/web/handler/impl/BodyHandlerImpl.java:77-362 | For an admitted non-multipart request fed chunks and then its end: within the limit, `next()` is called once, right after `setBody` with exactly the concatenation of the chunks. The argument is `null` only when no chunk arrived and no length was passed to the handler (no `Content-Length`, or pre-allocation off), so that no buffer was allocated. Beyond the limit, 413 is reported and `next()` is never called. |
| IngestionProofs.ExceptionThenEnd | vertx-web/src/main/java/io/vertx/ext/web/handler/impl/BodyHandlerImpl.java:266-274 | The exception handler latches neither `failed` nor `ended`. So when the request still ends with no upload pending, the failure is reported and `next()` is then called once, as the last effect. |
| IngestionProofs.UnsubscribedHandlerSilent | vertx-web/src/main/java/io/vertx/ext/web/handler/impl/BodyHandlerImpl.java:126-134 | A handler created for a request that had already ended gets no data or end handler; the upload and exception handlers the constructor installed stay. Its construction has no effect but the directory creation. Whatever the remaining handlers then receive, `ended` is never latched and `next()` is never called (an exception can still fail the request). |

## Left out

- I/O is left out: file-system operations (`existsBlocking`/`mkdirsBlocking`, `streamToFileSystem`, the asynchronous `delete` and its log-only failure branch) and logging. They appear only as effects in the trace; write outcomes arrive as `WriteComplete` events.
- Vert.x's routing context, request and response objects, and the Netty `DecoderException` type are not modelled. An exception is a value carrying an "is a decoder exception" flag and its cause.
- `response.writeContinue()` is modelled only as the `writeContinue` flag of the preflight outcome.
- `FileUpload.cancel()` depends on the upload's progress, which is not visible. What it returns is an input: every callback carries the values `cancel()` would return, and missing entries read as false.
- `UUID.randomUUID()` is an input of the upload-begin event.
- `new File(dir, uuid).getPath()` is modelled as `dir + "/" + uuid`, without java.io.File's path normalisation.
- `AtomicInteger` and `AtomicBoolean` are plain fields. Callbacks run one at a time on the request's context, and concurrency is not modelled.
- The model's `ParseLong` accepts only ASCII digits, and its `toLowerCase`/`equalsIgnoreCase` fold only ASCII letters. Java's other Unicode decimal digits (accepted through `Character.digit`) and case mappings are not modelled.
- BodyHandler.BHandler.Handle: `uploadSize += buff.length()` is unbounded, so it does not model a Java `long` wrap-around of the byte count, which would take more than 2^63 bytes. The upload-size sum at line 239 does wrap (`WrapLong`).
- The fluent setters (lines 146-180) and the public constructors are not modelled; the configuration is the `Config` value they would produce.
- When the request has already ended at preflight time, only the data and end handlers are not subscribed; the exception and upload handlers stay installed. `subscribe` records the choice; the runs do not enforce it by themselves, and UnsubscribedHandlerSilent takes it as the absence of chunk and end events.
- The whole-run theorems (InitInv, Reachable and the lemmas built on them) assume a limit of -1 or a non-negative `long` (`ValidConfig`). A limit below -1 breaks `Inv` from the start, since `uploadSize <= bodyLimit` already fails at `uploadSize == 0`. Such a limit rejects every chunk, while a request with no chunks still reaches `next()`, because the check at line 306 runs only per chunk.
- Every run is constrained by `Enabled`:
  - chunks, parts and the end arrive only before the end;
  - parts arrive only for forms;
  - each upload write completes once.
- `vertx-web/src/main/java/io/vertx/ext/web/handler/sockjs/SockJSSocket.java` and `vertx-web-api-service/src/test/java/io/vertx/ext/web/api/service/AnotherTestService.java` are not part of this model: they contain no logic.
