/** What holds of every run of a body handler that the preflight admitted: the
    limit is enforced, the completion gate opens exactly when the request has
    ended and every upload is written, cleanup disposes of each upload at most
    once, and a plain body reaches the next handler byte for byte. */
module IngestionProofs {
  import opened JavaValues
  import opened Preflight
  import opened Ingestion

  // ----- counting -----

  /** How often the trace calls `next()`. */
  function Nexts(trace: seq<Effect>): nat
    decreases |trace|
  {
    if trace == [] then 0
    else Nexts(trace[..|trace| - 1]) + (if trace[|trace| - 1] == Next then 1 else 0)
  }

  /** How often upload `i` was asked to cancel. */
  function Cancels(trace: seq<Effect>, i: nat): nat
    decreases |trace|
  {
    if trace == [] then 0
    else Cancels(trace[..|trace| - 1], i) + (if trace[|trace| - 1].Cancel? && trace[|trace| - 1].upload == i then 1 else 0)
  }

  lemma {:induction false} CountsAppend(a: seq<Effect>, b: seq<Effect>)
    ensures Nexts(a + b) == Nexts(a) + Nexts(b)
    ensures forall i: nat :: Cancels(a + b, i) == Cancels(a, i) + Cancels(b, i)
    decreases |b|
  {
    if b != [] {
      var ab := a + b;
      var b' := b[..|b| - 1];
      assert ab[..|ab| - 1] == a + b';
      assert ab[|ab| - 1] == b[|b| - 1];
      CountsAppend(a, b');
      assert Nexts(ab) == Nexts(a + b') + (if b[|b| - 1] == Next then 1 else 0);
      assert Nexts(b) == Nexts(b') + (if b[|b| - 1] == Next then 1 else 0);
    } else {
      assert a + b == a;
    }
  }

  lemma {:induction false} NoCounts(t: seq<Effect>)
    requires forall e :: e in t ==> !e.Cancel? && e != Next
    ensures Nexts(t) == 0 && forall i: nat :: Cancels(t, i) == 0
    decreases |t|
  {
    if t != [] {
      assert t[|t| - 1] in t;
      assert forall e :: e in t[..|t| - 1] ==> e in t;
      NoCounts(t[..|t| - 1]);
    }
  }

  /** Uploads whose write has not succeeded: the ones `uploadCount` still counts. */
  function Unwritten(writes: seq<WriteStatus>): nat {
    multiset(writes)[Streaming] + multiset(writes)[WriteFailed]
  }

  lemma {:induction false} UnwrittenBound(writes: seq<WriteStatus>)
    ensures Unwritten(writes) <= |writes|
    decreases |writes|
  {
    if writes != [] {
      var w := writes[..|writes| - 1];
      assert writes == w + [writes[|writes| - 1]];
      assert multiset(writes) == multiset(w) + multiset{writes[|writes| - 1]};
      UnwrittenBound(w);
    }
  }

  predicate AllWritten(writes: seq<WriteStatus>) {
    forall i :: 0 <= i < |writes| ==> writes[i] == Written
  }

  predicate IsDisposal(e: Effect) { e.Cancel? || e.Delete? }

  lemma UnwrittenZero(writes: seq<WriteStatus>)
    ensures Unwritten(writes) == 0 <==> AllWritten(writes)
  {
    if AllWritten(writes) {
      assert Streaming !in writes && WriteFailed !in writes;
    } else {
      var i :| 0 <= i < |writes| && writes[i] != Written;
      assert writes[i] in multiset(writes);
    }
  }

  // ----- cleanup -----

  lemma {:induction false} DisposeOnlyDisposals(uploads: seq<FileUpload>, cancels: seq<bool>, n: nat)
    requires n <= |uploads|
    ensures forall e :: e in DisposeUpTo(uploads, cancels, n) ==> IsDisposal(e)
  {
    if n > 0 {
      DisposeOnlyDisposals(uploads, cancels, n - 1);
    }
  }

  /** The disposal loop asks each of the first `n` uploads to cancel exactly once. */
  lemma {:induction false} DisposeCancelsOnce(uploads: seq<FileUpload>, cancels: seq<bool>, n: nat, i: nat)
    requires n <= |uploads|
    ensures Cancels(DisposeUpTo(uploads, cancels, n), i) == (if i < n then 1 else 0)
    ensures Nexts(DisposeUpTo(uploads, cancels, n)) == 0
  {
    if n > 0 {
      DisposeCancelsOnce(uploads, cancels, n - 1, i);
      var one := DisposeOne(uploads, cancels, n - 1);
      var rest := DisposeUpTo(uploads, cancels, n - 1);
      assert DisposeUpTo(uploads, cancels, n) == rest + one;
      CountsAppend(rest, one);
      if Cancelled(cancels, n - 1) {
        assert one == [Cancel(n - 1, true)];
        assert one[..0] == [];
      } else {
        var del := [Delete(uploads[n - 1].uploadedFileName)];
        assert one == [Cancel(n - 1, false)] + del;
        CountsAppend([Cancel(n - 1, false)], del);
        assert [Cancel(n - 1, false)][..0] == [];
        assert del[..0] == [];
      }
    }
  }

  /** The disposal loop deletes exactly the files of the uploads whose `cancel()` returned false. */
  lemma {:induction false} DisposeDeletes(uploads: seq<FileUpload>, cancels: seq<bool>, n: nat, path: string)
    requires n <= |uploads|
    ensures Delete(path) in DisposeUpTo(uploads, cancels, n) <==>
            exists i :: 0 <= i < n && !Cancelled(cancels, i) && uploads[i].uploadedFileName == path
  {
    if n > 0 {
      DisposeDeletes(uploads, cancels, n - 1, path);
      assert DisposeUpTo(uploads, cancels, n) == DisposeUpTo(uploads, cancels, n - 1) + DisposeOne(uploads, cancels, n - 1);
      if !Cancelled(cancels, n - 1) && uploads[n - 1].uploadedFileName == path {
        assert Delete(path) in DisposeOne(uploads, cancels, n - 1);
      }
    }
  }

  /** Cleanup changes nothing but the guard and the trace, which it only extends;
      once the guard is set it changes nothing at all. */
  lemma CleanupFrame(s: State, cancels: seq<bool>)
    ensures Cleanup(s, cancels).(trace := s.trace) == s.(cleanup := true)
    ensures s.trace <= Cleanup(s, cancels).trace
    ensures s.cleanup ==> Cleanup(s, cancels) == s
    ensures !s.cfg.handleFileUploads ==> Cleanup(s, cancels).trace == s.trace
    ensures forall e :: e in Cleanup(s, cancels).trace ==> e in s.trace || IsDisposal(e)
  {
    DisposeOnlyDisposals(s.fileUploads, cancels, |s.fileUploads|);
  }

  /** The first call that handles file uploads asks every upload known at that moment
      to cancel, exactly once; every other call asks none. */
  lemma CleanupCancelsEach(s: State, cancels: seq<bool>, i: nat)
    ensures Cancels(Cleanup(s, cancels).trace, i)
            == Cancels(s.trace, i) + (if !s.cleanup && s.cfg.handleFileUploads && i < |s.fileUploads| then 1 else 0)
  {
    var d := Disposal(s, cancels);
    CountsAppend(s.trace, d);
    if !s.cleanup && s.cfg.handleFileUploads {
      DisposeCancelsOnce(s.fileUploads, cancels, |s.fileUploads|, i);
    }
  }

  /** ... and deletes the file of exactly those uploads whose `cancel()` returned false. */
  lemma CleanupDeletes(s: State, cancels: seq<bool>, path: string)
    requires !s.cleanup && s.cfg.handleFileUploads
    requires Delete(path) !in s.trace
    ensures Delete(path) in Cleanup(s, cancels).trace <==>
            exists i :: 0 <= i < |s.fileUploads| && !Cancelled(cancels, i) && s.fileUploads[i].uploadedFileName == path
  {
    DisposeDeletes(s.fileUploads, cancels, |s.fileUploads|, path);
  }

  // ----- the invariant -----

  ghost predicate CancelsAtMostOnce(t: seq<Effect>) { forall i: nat :: Cancels(t, i) <= 1 }

  ghost predicate NoCancels(t: seq<Effect>) { forall i: nat :: Cancels(t, i) == 0 }

  /** Effects that neither continue the chain nor cancel an upload. */
  predicate Silent(added: seq<Effect>) {
    forall e :: e in added ==> !e.Cancel? && e != Next
  }

  lemma SilentAppend(t: seq<Effect>, added: seq<Effect>)
    requires Silent(added)
    ensures Nexts(t + added) == Nexts(t)
    ensures CancelsAtMostOnce(t + added) <==> CancelsAtMostOnce(t)
    ensures NoCancels(t + added) <==> NoCancels(t)
  {
    CountsAppend(t, added);
    NoCounts(added);
  }

  /** Everything the invariant says except the completion gate and the body length. */
  ghost predicate Core(s: State) {
    && |s.writes| == |s.fileUploads|
    && s.uploadCount == Unwritten(s.writes)
    && s.uploadSize >= 0
    && (!s.failed && s.cfg.bodyLimit != -1 ==> s.uploadSize <= s.cfg.bodyLimit)
    && (s.failed ==> s.cleanup)
    && (s.failed <==> Fail(Status(413)) in s.trace)
    && CancelsAtMostOnce(s.trace)
    && (!s.cleanup ==> NoCancels(s.trace))
    && (s.isMultipart ==> BodyBytes(s.body) == [])
  }

  /** The completion gate: `next()` has been called once when the request has
      ended, no upload is pending and nothing failed, and never otherwise. */
  ghost predicate Gate(s: State) {
    Nexts(s.trace) == (if s.ended && s.uploadCount == 0 && !s.failed then 1 else 0)
  }

  /** Until the body is handed on, a plain body holds every byte counted; once it
      is handed on the handler no longer holds it. */
  ghost predicate BodyTracksSize(s: State) {
    && (!s.failed && !s.isMultipart && Nexts(s.trace) == 0 ==> |BodyBytes(s.body)| == s.uploadSize)
    && (Nexts(s.trace) != 0 ==> s.body.None?)
  }

  ghost predicate Inv(s: State) {
    Core(s) && Gate(s) && BodyTracksSize(s)
  }

  /** What a cleanup keeps of the facts about the trace. */
  lemma CleanupTrace(s: State, cancels: seq<bool>)
    requires CancelsAtMostOnce(s.trace) && (!s.cleanup ==> NoCancels(s.trace))
    ensures CancelsAtMostOnce(Cleanup(s, cancels).trace)
    ensures Fail(Status(413)) in Cleanup(s, cancels).trace <==> Fail(Status(413)) in s.trace
    ensures Cleanup(s, cancels).(trace := s.trace) == s.(cleanup := true)
  {
    if !s.cleanup && s.cfg.handleFileUploads {
      var d := DisposeUpTo(s.fileUploads, cancels, |s.fileUploads|);
      DisposeOnlyDisposals(s.fileUploads, cancels, |s.fileUploads|);
      assert Fail(Status(413)) !in d;
      CountsAppend(s.trace, d);
      DisposeCancelsOnce(s.fileUploads, cancels, |s.fileUploads|, 0);
      forall i: nat
        ensures Cancels(s.trace + d, i) <= 1
      {
        DisposeCancelsOnce(s.fileUploads, cancels, |s.fileUploads|, i);
      }
    } else {
      assert s.trace + Disposal(s, cancels) == s.trace;
    }
  }

  lemma CoreCleanup(s: State, cancels: seq<bool>)
    requires Core(s)
    ensures Core(Cleanup(s, cancels))
    ensures Cleanup(s, cancels).(trace := s.trace) == s.(cleanup := true)
  {
    CleanupTrace(s, cancels);
  }

  lemma CoreEmit(s: State, e: Effect)
    requires Core(s) && !e.Cancel? && e != Next
    requires e == Fail(Status(413)) ==> s.failed
    ensures Core(Emit(s, e))
    ensures Nexts(Emit(s, e).trace) == Nexts(s.trace)
  {
    SilentAppend(s.trace, [e]);
  }

  lemma InvCleanup(s: State, cancels: seq<bool>)
    requires Inv(s)
    ensures Inv(Cleanup(s, cancels))
  {
    CoreCleanup(s, cancels);
    CleanupNoNext(s, cancels);
  }

  /** Cleanup followed by a report that is not 413 keeps the invariant. */
  lemma InvCleanupEmit(s: State, cancels: seq<bool>, e: Effect)
    requires Inv(s) && !e.Cancel? && e != Next && e != Fail(Status(413))
    ensures Inv(Emit(Cleanup(s, cancels), e))
  {
    CoreCleanup(s, cancels);
    CleanupNoNext(s, cancels);
    CoreEmit(Cleanup(s, cancels), e);
  }

  lemma FreshInv(s: State)
    requires s.uploadSize == 0 && !s.failed && !s.cleanup && !s.ended
    requires s.uploadCount == 0 && s.fileUploads == [] && s.writes == []
    requires BodyBytes(s.body) == [] && (s.cfg.bodyLimit == -1 || s.cfg.bodyLimit >= 0)
    requires Silent(s.trace) && Fail(Status(413)) !in s.trace
    ensures Inv(s)
  {
    SilentAppend([], s.trace);
    assert [] + s.trace == s.trace;
    assert Unwritten([]) == 0;
  }

  lemma InitInv(cfg: Config, req: Request, contentLength: int)
    requires ValidConfig(cfg)
    ensures Inv(Init(cfg, req, contentLength))
  {
    FreshInv(Init(cfg, req, contentLength));
  }

  /** Appending `next()` counts it once and cancels nothing. */
  lemma AppendNext(t: seq<Effect>)
    ensures Nexts(t + [Next]) == Nexts(t) + 1
    ensures CancelsAtMostOnce(t + [Next]) <==> CancelsAtMostOnce(t)
    ensures NoCancels(t + [Next]) <==> NoCancels(t)
  {
    CountsAppend(t, [Next]);
    assert [Next][..0] == [];
  }

  lemma DoEndInv(s: State, cancels: seq<bool>)
    requires Core(s) && s.ended && s.uploadCount == 0 && Nexts(s.trace) == 0
    ensures Inv(DoEnd(s, cancels))
  {
    if s.failed {
      CoreCleanup(s, cancels);
      CleanupNoNext(s, cancels);
    } else {
      DoEndPublishInv(s, cancels);
    }
  }

  lemma DoEndPublishInv(s: State, cancels: seq<bool>)
    requires Core(s) && s.ended && s.uploadCount == 0 && Nexts(s.trace) == 0 && !s.failed
    ensures Inv(DoEnd(s, cancels))
  {
    PublicationSilent(s);
    PublishInv(s, Publication(s), DoEnd(s, cancels));
  }

  /** The publication neither continues, cancels nor reports. */
  lemma PublicationSilent(s: State)
    ensures Silent(Publication(s)) && Fail(Status(413)) !in Publication(s)
    ensures forall e :: e in Publication(s) ==> !IsDisposal(e)
  {
  }

  /** Publishing the body: `next()` is appended after effects that count nothing. */
  lemma PublishInv(s: State, added: seq<Effect>, r: State)
    requires Core(s) && s.ended && s.uploadCount == 0 && Nexts(s.trace) == 0 && !s.failed
    requires Silent(added) && Fail(Status(413)) !in added
    requires r == s.(bodyEndHandler := r.bodyEndHandler, body := None, trace := s.trace + added + [Next])
    ensures Inv(r)
  {
    SilentAppend(s.trace, added);
    AppendNext(s.trace + added);
  }

  // ----- one callback at a time -----

  /** The 413 path, once `failed` is set: clean up and report. */
  lemma Fail413Inv(s: State, cancels: seq<bool>)
    requires s.failed && !s.ended && Nexts(s.trace) == 0
    requires |s.writes| == |s.fileUploads| && s.uploadCount == Unwritten(s.writes) && s.uploadSize >= 0
    requires CancelsAtMostOnce(s.trace) && (!s.cleanup ==> NoCancels(s.trace))
    requires s.isMultipart ==> BodyBytes(s.body) == []
    ensures Inv(Emit(Cleanup(s, cancels), Fail(Status(413))))
  {
    var c := Cleanup(s, cancels);
    CleanupTrace(s, cancels);
    CleanupNoNext(s, cancels);
    SilentAppend(c.trace, [Fail(Status(413))]);
  }

  lemma ChunkInv(s: State, data: seq<byte>, cancels: seq<bool>)
    requires Inv(s) && !s.ended
    ensures Inv(OnChunk(s, data, cancels))
  {
    if s.failed {
      assert OnChunk(s, data, cancels) == s;
    } else {
      var size := s.uploadSize + |data|;
      if s.cfg.bodyLimit != -1 && size > s.cfg.bodyLimit {
        ChunkOverflowInv(s, data, cancels);
      } else if !s.isMultipart {
        ChunkAppendInv(s, data, cancels);
      } else {
        ChunkCountInv(s, data, cancels);
      }
    }
  }

  lemma ChunkOverflowInv(s: State, data: seq<byte>, cancels: seq<bool>)
    requires Inv(s) && !s.ended && !s.failed
    requires s.cfg.bodyLimit != -1 && s.uploadSize + |data| > s.cfg.bodyLimit
    ensures Inv(OnChunk(s, data, cancels))
  {
    Fail413Inv(s.(uploadSize := s.uploadSize + |data|, failed := true), cancels);
  }

  /** A plain body within the limit: the bytes are appended. */
  lemma ChunkAppendInv(s: State, data: seq<byte>, cancels: seq<bool>)
    requires Inv(s) && !s.ended && !s.failed && !s.isMultipart
    requires !(s.cfg.bodyLimit != -1 && s.uploadSize + |data| > s.cfg.bodyLimit)
    ensures Inv(OnChunk(s, data, cancels))
  {
    assert |BodyBytes(s.body)| == s.uploadSize;
  }

  /** A multipart body within the limit: the bytes are only counted. */
  lemma ChunkCountInv(s: State, data: seq<byte>, cancels: seq<bool>)
    requires Inv(s) && !s.ended && !s.failed && s.isMultipart
    requires !(s.cfg.bodyLimit != -1 && s.uploadSize + |data| > s.cfg.bodyLimit)
    ensures Inv(OnChunk(s, data, cancels))
  {
  }

  lemma UploadInv(s: State, part: Part, uuid: string, cancels: seq<bool>)
    requires Inv(s) && !s.ended
    ensures Inv(OnUpload(s, part, uuid, cancels))
  {
    if PartTooLarge(s, part) {
      UploadRefusedInv(s, part, uuid, cancels);
    } else if s.cfg.handleFileUploads {
      UploadStreamInv(s, part, uuid, cancels);
    }
  }

  lemma UploadRefusedInv(s: State, part: Part, uuid: string, cancels: seq<bool>)
    requires Inv(s) && !s.ended && PartTooLarge(s, part)
    ensures Inv(OnUpload(s, part, uuid, cancels))
  {
    Fail413Inv(s.(failed := true), cancels);
  }

  /** A part within the limit is streamed to a fresh file and counted as pending. */
  lemma UploadStreamInv(s: State, part: Part, uuid: string, cancels: seq<bool>)
    requires Inv(s) && !s.ended && s.cfg.handleFileUploads
    requires !PartTooLarge(s, part)
    ensures Inv(OnUpload(s, part, uuid, cancels))
  {
    var path := UploadPath(s.cfg.uploadsDirectory, uuid);
    SilentAppend(s.trace, [StreamToFile(path)]);
    assert multiset(s.writes + [Streaming]) == multiset(s.writes) + multiset{Streaming};
  }

  /** A pending write that completes changes the count of unwritten uploads by
      one on success and not at all on failure. */
  lemma UnwrittenUpdate(writes: seq<WriteStatus>, i: nat, v: WriteStatus)
    requires i < |writes| && writes[i] == Streaming && v != Streaming
    ensures Unwritten(writes) >= 1
    ensures Unwritten(writes[i := v]) == Unwritten(writes) - (if v == Written then 1 else 0)
  {
    assert writes == writes[..i] + [writes[i]] + writes[i + 1..];
    assert writes[i := v] == writes[..i] + [v] + writes[i + 1..];
  }

  lemma WriteCompleteInv(s: State, i: nat, outcome: WriteOutcome, cancels: seq<bool>)
    requires Inv(s) && i < |s.writes| && s.writes[i] == Streaming
    ensures Inv(OnWriteComplete(s, i, outcome, cancels))
  {
    if outcome.Succeeded? {
      WriteSucceededInv(s, i, cancels);
    } else {
      WriteFailedInv(s, i, outcome.cause, cancels);
    }
  }

  /** A write that succeeds ends its upload: one fewer pending, and the end of the
      request may now be processed. */
  lemma WriteSucceededInv(s: State, i: nat, cancels: seq<bool>)
    requires Inv(s) && i < |s.writes| && s.writes[i] == Streaming
    ensures Inv(OnWriteComplete(s, i, Succeeded, cancels))
  {
    var u := s.(writes := s.writes[i := Written], uploadCount := s.uploadCount - 1);
    WrittenState(s, i, u);
    if u.ended && u.uploadCount == 0 {
      DoEndInv(u, cancels);
    }
  }

  /** The state right after a pending write succeeded, before `uploadEnded` looks at it. */
  lemma WrittenState(s: State, i: nat, u: State)
    requires Inv(s) && i < |s.writes| && s.writes[i] == Streaming
    requires u == s.(writes := s.writes[i := Written], uploadCount := s.uploadCount - 1)
    ensures Core(u) && Nexts(u.trace) == 0
    ensures !(u.ended && u.uploadCount == 0) ==> Inv(u)
  {
    UnwrittenUpdate(s.writes, i, Written);
  }

  /** A write that fails cleans up and reports the cause; the upload stays counted. */
  lemma WriteFailedInv(s: State, i: nat, cause: Throwable, cancels: seq<bool>)
    requires Inv(s) && i < |s.writes| && s.writes[i] == Streaming
    ensures Inv(OnWriteComplete(s, i, FailedWith(cause), cancels))
  {
    var t := s.(writes := s.writes[i := WriteFailed]);
    WriteFailedState(s, i, t);
    InvCleanupEmit(t, cancels, Fail(Thrown(cause)));
  }

  /** The state right after a pending write failed: the upload stays counted. */
  lemma WriteFailedState(s: State, i: nat, t: State)
    requires Inv(s) && i < |s.writes| && s.writes[i] == Streaming
    requires t == s.(writes := s.writes[i := WriteFailed])
    ensures Inv(t)
  {
    UnwrittenUpdate(s.writes, i, WriteFailed);
  }

  lemma EndInv(s: State, cancels: seq<bool>)
    requires Inv(s) && !s.ended
    ensures Inv(End(s, cancels))
  {
    var t := s.(ended := true);
    if t.uploadCount == 0 {
      DoEndInv(t, cancels);
    }
  }

  lemma ExceptionInv(s: State, error: Throwable, cancels: seq<bool>)
    requires Inv(s)
    ensures Inv(OnException(s, error, cancels))
  {
    InvCleanupEmit(s, cancels, if error.isDecoderException then Fail(StatusAndCause(400, error.cause)) else Fail(Thrown(error)));
  }

  lemma BodyEndInv(s: State, cancels: seq<bool>)
    requires Inv(s)
    ensures Inv(OnBodyEnd(s, cancels))
  {
    InvCleanup(s, cancels);
  }

  lemma StepInv(s: State, e: Event)
    requires Inv(s) && Enabled(s, e)
    ensures Inv(Step(s, e))
  {
    match e
    case Chunk(data, c) => ChunkInv(s, data, c);
    case UploadBegin(part, uuid, c) => UploadInv(s, part, uuid, c);
    case WriteComplete(i, outcome, c) => WriteCompleteInv(s, i, outcome, c);
    case RequestEnd(c) => EndInv(s, c);
    case RequestException(error, c) => ExceptionInv(s, error, c);
    case BodyEnd(c) => BodyEndInv(s, c);
  }

  lemma {:induction false} RunInv(s: State, es: seq<Event>)
    requires Inv(s) && ValidRun(s, es)
    ensures Inv(Run(s, es))
    decreases |es|
  {
    if es != [] {
      StepInv(s, es[0]);
      RunInv(Step(s, es[0]), es[1..]);
    }
  }

  // ----- what every callback keeps -----

  /** `t` comes after `s`: configuration and classification are fixed, the
      latches `cleanup` and `ended` stay set, the trace only grows, and once the
      cleanup guard is set nothing more is cancelled or deleted. */
  ghost predicate Follows(s: State, t: State) {
    && t.cfg == s.cfg && t.contentLength == s.contentLength
    && t.isMultipart == s.isMultipart && t.isUrlEncoded == s.isUrlEncoded
    && (s.cleanup ==> t.cleanup) && (s.ended ==> t.ended)
    && s.trace <= t.trace
    && (s.cleanup ==> forall k :: |s.trace| <= k < |t.trace| ==> !IsDisposal(t.trace[k]))
  }

  lemma FollowsTrans(a: State, b: State, c: State)
    requires Follows(a, b) && Follows(b, c)
    ensures Follows(a, c)
  {
    if a.cleanup {
      forall k | |a.trace| <= k < |c.trace|
        ensures !IsDisposal(c.trace[k])
      {
        if k >= |b.trace| {
        } else {
          assert c.trace[k] == b.trace[k];
        }
      }
    }
  }

  lemma CleanupFollows(s: State, cancels: seq<bool>)
    ensures Follows(s, Cleanup(s, cancels))
  {
    CleanupFrame(s, cancels);
  }

  lemma EmitFollows(s: State, e: Effect)
    requires !IsDisposal(e)
    ensures Follows(s, Emit(s, e))
  {
  }

  lemma DoEndFollows(s: State, cancels: seq<bool>)
    ensures Follows(s, DoEnd(s, cancels))
  {
    if s.failed {
      CleanupFollows(s, cancels);
    } else {
      PublicationSilent(s);
    }
  }

  lemma StepFollows(s: State, e: Event)
    ensures Follows(s, Step(s, e))
  {
    match e
    case Chunk(data, c) => ChunkFollows(s, data, c);
    case UploadBegin(part, uuid, c) => UploadFollows(s, part, uuid, c);
    case WriteComplete(i, outcome, c) => WriteFollows(s, i, outcome, c);
    case RequestEnd(c) => EndFollows(s, c);
    case RequestException(error, c) => ExceptionFollows(s, error, c);
    case BodyEnd(c) => CleanupFollows(s, c);
  }

  /** The 413 path, from the state in which `failed` was just set. */
  lemma Fail413Follows(s: State, t: State, cancels: seq<bool>)
    requires Follows(s, t)
    ensures Follows(s, Emit(Cleanup(t, cancels), Fail(Status(413))))
  {
    CleanupFollows(t, cancels);
    EmitFollows(Cleanup(t, cancels), Fail(Status(413)));
    FollowsTrans(s, t, Cleanup(t, cancels));
    FollowsTrans(s, Cleanup(t, cancels), Emit(Cleanup(t, cancels), Fail(Status(413))));
  }

  lemma ChunkFollows(s: State, data: seq<byte>, cancels: seq<bool>)
    ensures Follows(s, OnChunk(s, data, cancels))
  {
    if s.failed {
      assert OnChunk(s, data, cancels) == s;
    } else if s.cfg.bodyLimit != -1 && s.uploadSize + |data| > s.cfg.bodyLimit {
      ChunkOverflowFollows(s, data, cancels);
    } else {
      ChunkAcceptedFollows(s, data, cancels);
    }
  }

  lemma ChunkOverflowFollows(s: State, data: seq<byte>, cancels: seq<bool>)
    requires !s.failed && s.cfg.bodyLimit != -1 && s.uploadSize + |data| > s.cfg.bodyLimit
    ensures Follows(s, OnChunk(s, data, cancels))
  {
    Fail413Follows(s, s.(uploadSize := s.uploadSize + |data|, failed := true), cancels);
  }

  lemma ChunkAcceptedFollows(s: State, data: seq<byte>, cancels: seq<bool>)
    requires !s.failed && !(s.cfg.bodyLimit != -1 && s.uploadSize + |data| > s.cfg.bodyLimit)
    ensures Follows(s, OnChunk(s, data, cancels))
  {
    var r := OnChunk(s, data, cancels);
    assert r.trace == s.trace && r.cfg == s.cfg && r.cleanup == s.cleanup && r.ended == s.ended;
    assert r.contentLength == s.contentLength && r.isMultipart == s.isMultipart && r.isUrlEncoded == s.isUrlEncoded;
  }

  lemma UploadFollows(s: State, part: Part, uuid: string, cancels: seq<bool>)
    ensures Follows(s, OnUpload(s, part, uuid, cancels))
  {
    if PartTooLarge(s, part) {
      UploadRefusedFollows(s, part, uuid, cancels);
    } else if s.cfg.handleFileUploads {
      UploadStreamFollows(s, part, uuid, cancels);
    }
  }

  lemma UploadStreamFollows(s: State, part: Part, uuid: string, cancels: seq<bool>)
    requires !PartTooLarge(s, part) && s.cfg.handleFileUploads
    ensures Follows(s, OnUpload(s, part, uuid, cancels))
  {
    var r := OnUpload(s, part, uuid, cancels);
    var e := StreamToFile(UploadPath(s.cfg.uploadsDirectory, uuid));
    assert r.trace == s.trace + [e];
    assert r.cfg == s.cfg && r.cleanup == s.cleanup && r.ended == s.ended;
    assert r.contentLength == s.contentLength && r.isMultipart == s.isMultipart && r.isUrlEncoded == s.isUrlEncoded;
  }

  lemma UploadRefusedFollows(s: State, part: Part, uuid: string, cancels: seq<bool>)
    requires PartTooLarge(s, part)
    ensures Follows(s, OnUpload(s, part, uuid, cancels))
  {
    Fail413Follows(s, s.(failed := true), cancels);
  }

  lemma WriteFollows(s: State, i: nat, outcome: WriteOutcome, cancels: seq<bool>)
    ensures Follows(s, OnWriteComplete(s, i, outcome, cancels))
  {
    if outcome.Succeeded? {
      WriteSucceededFollows(s, i, cancels);
    } else {
      WriteFailedFollows(s, i, outcome.cause, cancels);
    }
  }

  lemma WriteSucceededFollows(s: State, i: nat, cancels: seq<bool>)
    ensures Follows(s, OnWriteComplete(s, i, Succeeded, cancels))
  {
    var t := s.(writes := if i < |s.writes| then s.writes[i := Written] else s.writes);
    var u := t.(uploadCount := t.uploadCount - 1);
    if u.ended && u.uploadCount == 0 {
      DoEndFollows(u, cancels);
      FollowsTrans(s, u, DoEnd(u, cancels));
    }
  }

  lemma WriteFailedFollows(s: State, i: nat, cause: Throwable, cancels: seq<bool>)
    ensures Follows(s, OnWriteComplete(s, i, FailedWith(cause), cancels))
  {
    var t := s.(writes := if i < |s.writes| then s.writes[i := WriteFailed] else s.writes);
    var f := Fail(Thrown(cause));
    CleanupFollows(t, cancels);
    EmitFollows(Cleanup(t, cancels), f);
    FollowsTrans(s, t, Cleanup(t, cancels));
    FollowsTrans(s, Cleanup(t, cancels), Emit(Cleanup(t, cancels), f));
  }

  lemma EndFollows(s: State, cancels: seq<bool>)
    ensures Follows(s, End(s, cancels))
  {
    var t := s.(ended := true);
    if t.uploadCount == 0 {
      DoEndFollows(t, cancels);
      FollowsTrans(s, t, DoEnd(t, cancels));
    }
  }

  lemma ExceptionFollows(s: State, error: Throwable, cancels: seq<bool>)
    ensures Follows(s, OnException(s, error, cancels))
  {
    var f := if error.isDecoderException then Fail(StatusAndCause(400, error.cause)) else Fail(Thrown(error));
    CleanupFollows(s, cancels);
    EmitFollows(Cleanup(s, cancels), f);
    FollowsTrans(s, Cleanup(s, cancels), Emit(Cleanup(s, cancels), f));
  }

  lemma {:induction false} RunFollows(s: State, es: seq<Event>)
    ensures Follows(s, Run(s, es))
    decreases |es|
  {
    if es != [] {
      StepFollows(s, es[0]);
      RunFollows(Step(s, es[0]), es[1..]);
      FollowsTrans(s, Step(s, es[0]), Run(s, es));
    } else {
      assert Run(s, es) == s;
    }
  }

  lemma {:induction false} RunAppend(s: State, a: seq<Event>, b: seq<Event>)
    ensures Run(s, a + b) == Run(Run(s, a), b)
    ensures ValidRun(s, a + b) <==> ValidRun(s, a) && ValidRun(Run(s, a), b)
    decreases |a|
  {
    if a == [] {
      assert a + b == b;
    } else {
      assert (a + b)[0] == a[0];
      assert (a + b)[1..] == a[1..] + b;
      RunAppend(Step(s, a[0]), a[1..], b);
    }
  }

  // ----- whole runs -----

  /** The handler a request gets when the preflight admits it. */
  function Start(cfg: Config, req: Request): State
    requires Handle(cfg, req, false).Ingest?
  {
    Init(cfg, req, Handle(cfg, req, false).handlerLength)
  }

  /** Every state a run of an admitted request reaches satisfies the invariant. */
  lemma Reachable(cfg: Config, req: Request, es: seq<Event>)
    requires ValidConfig(cfg) && Handle(cfg, req, false).Ingest? && ValidRun(Start(cfg, req), es)
    ensures Inv(Run(Start(cfg, req), es))
  {
    InitInv(cfg, req, Handle(cfg, req, false).handlerLength);
    RunInv(Start(cfg, req), es);
  }

  /** `next()` is called at most once, and it has been called exactly when the
      request has ended, every upload's file was written and nothing latched `failed`. */
  lemma CompletionGate(cfg: Config, req: Request, es: seq<Event>)
    requires ValidConfig(cfg) && Handle(cfg, req, false).Ingest? && ValidRun(Start(cfg, req), es)
    ensures Nexts(Run(Start(cfg, req), es).trace) <= 1
    ensures var r := Run(Start(cfg, req), es);
            Nexts(r.trace) == 1 <==> r.ended && AllWritten(r.writes) && !r.failed
  {
    Reachable(cfg, req, es);
    UnwrittenZero(Run(Start(cfg, req), es).writes);
  }

  /** Once a write has failed, `next()` is never called: the failed upload stays counted. */
  lemma FailedWriteBlocksNext(cfg: Config, req: Request, es: seq<Event>)
    requires ValidConfig(cfg) && Handle(cfg, req, false).Ingest? && ValidRun(Start(cfg, req), es)
    requires WriteFailed in Run(Start(cfg, req), es).writes
    ensures Nexts(Run(Start(cfg, req), es).trace) == 0
    ensures Run(Start(cfg, req), es).uploadCount > 0
  {
    Reachable(cfg, req, es);
    var r := Run(Start(cfg, req), es);
    assert WriteFailed in multiset(r.writes);
  }

  /** The outstanding-upload counter counts exactly the recorded uploads whose write has not succeeded. */
  lemma UploadCounter(cfg: Config, req: Request, es: seq<Event>)
    requires ValidConfig(cfg) && Handle(cfg, req, false).Ingest? && ValidRun(Start(cfg, req), es)
    ensures var r := Run(Start(cfg, req), es);
            0 <= r.uploadCount <= |r.fileUploads| && r.uploadCount == Unwritten(r.writes) && |r.writes| == |r.fileUploads|
  {
    Reachable(cfg, req, es);
    UnwrittenBound(Run(Start(cfg, req), es).writes);
  }

  /** The limit: `failed` is latched exactly when 413 has been reported; until
      then the bytes counted and the bytes held stay within the limit; and a
      request that got 413 never reaches the next handler. */
  lemma LimitEnforced(cfg: Config, req: Request, es: seq<Event>)
    requires ValidConfig(cfg) && Handle(cfg, req, false).Ingest? && ValidRun(Start(cfg, req), es)
    ensures var r := Run(Start(cfg, req), es);
            r.failed <==> Fail(Status(413)) in r.trace
    ensures var r := Run(Start(cfg, req), es);
            !r.failed && cfg.bodyLimit != -1 ==> r.uploadSize <= cfg.bodyLimit && |BodyBytes(r.body)| <= cfg.bodyLimit
    ensures var r := Run(Start(cfg, req), es);
            Fail(Status(413)) in r.trace ==> Nexts(r.trace) == 0
    ensures Run(Start(cfg, req), es).isMultipart ==> BodyBytes(Run(Start(cfg, req), es).body) == []
  {
    Reachable(cfg, req, es);
    RunFollows(Start(cfg, req), es);
  }

  /** The disposal loop runs at most once per handler: no upload is asked to cancel twice. */
  lemma CleanupAtMostOnce(cfg: Config, req: Request, es: seq<Event>, i: nat)
    requires ValidConfig(cfg) && Handle(cfg, req, false).Ingest? && ValidRun(Start(cfg, req), es)
    ensures Cancels(Run(Start(cfg, req), es).trace, i) <= 1
    ensures !Run(Start(cfg, req), es).cleanup ==> Cancels(Run(Start(cfg, req), es).trace, i) == 0
  {
    Reachable(cfg, req, es);
  }

  /** The cleanup guard is one-shot: an upload that begins after it was set is
      recorded and streamed to its file, but nothing the handler does from then
      on cancels anything or deletes any file, that upload's included. */
  lemma LateUploadNeverDisposed(s: State, part: Part, uuid: string, cancels: seq<bool>, es: seq<Event>)
    requires s.cleanup && s.cfg.handleFileUploads && !PartTooLarge(s, part)
    ensures OnUpload(s, part, uuid, cancels).fileUploads
            == s.fileUploads + [FileUpload(UploadPath(s.cfg.uploadsDirectory, uuid), part)]
    ensures var r := Run(OnUpload(s, part, uuid, cancels), es);
            s.trace <= r.trace && forall k :: |s.trace| <= k < |r.trace| ==> !IsDisposal(r.trace[k])
  {
    var t := OnUpload(s, part, uuid, cancels);
    UploadFollows(s, part, uuid, cancels);
    RunFollows(t, es);
    FollowsTrans(s, t, Run(t, es));
  }

  /** A part is either refused before it starts, with 413 and without being
      counted or recorded, or, when uploads are handled, counted once and
      recorded once with its fresh file name. */
  lemma UploadBegins(s: State, part: Part, uuid: string, cancels: seq<bool>)
    ensures var r := OnUpload(s, part, uuid, cancels);
            PartTooLarge(s, part) ==>
              r.failed && r.cleanup && r.uploadCount == s.uploadCount && r.fileUploads == s.fileUploads
              && s.trace <= r.trace && r.trace[|r.trace| - 1] == Fail(Status(413))
              && r.trace == Cleanup(s, cancels).trace + [Fail(Status(413))]
              && r.(failed := s.failed, cleanup := s.cleanup, trace := s.trace) == s
    ensures var r := OnUpload(s, part, uuid, cancels);
            !PartTooLarge(s, part) && s.cfg.handleFileUploads ==>
              r.uploadCount == s.uploadCount + 1
              && r.fileUploads == s.fileUploads + [FileUpload(UploadPath(s.cfg.uploadsDirectory, uuid), part)]
              && r.writes == s.writes + [Streaming]
              && r.trace == s.trace + [StreamToFile(UploadPath(s.cfg.uploadsDirectory, uuid))]
              && r.(uploadCount := s.uploadCount, fileUploads := s.fileUploads, writes := s.writes, trace := s.trace) == s
    ensures !PartTooLarge(s, part) && !s.cfg.handleFileUploads ==> OnUpload(s, part, uuid, cancels) == s
  {
    if PartTooLarge(s, part) {
      CleanupFrame(s.(failed := true), cancels);
      assert Disposal(s.(failed := true), cancels) == Disposal(s, cancels);
    }
  }

  /** A cleanup never calls `next()`. */
  lemma CleanupNoNext(s: State, cancels: seq<bool>)
    ensures Nexts(Cleanup(s, cancels).trace) == Nexts(s.trace)
  {
    CountsAppend(s.trace, Disposal(s, cancels));
    if !s.cleanup && s.cfg.handleFileUploads {
      DisposeCancelsOnce(s.fileUploads, cancels, |s.fileUploads|, 0);
    }
  }

  /** `doEnd` after a failure only cleans up; otherwise it merges the form
      attributes when asked, publishes the body and releases it, arms the
      body-end cleanup when uploads are deleted on end, and calls `next()` once, last. */
  lemma DoEndOutcome(s: State, cancels: seq<bool>)
    ensures var r := DoEnd(s, cancels);
            s.failed ==> r == Cleanup(s, cancels) && Nexts(r.trace) == Nexts(s.trace)
    ensures var r := DoEnd(s, cancels);
            !s.failed ==>
              && r.body.None? && Nexts(r.trace) == Nexts(s.trace) + 1
              && (r.bodyEndHandler <==> s.bodyEndHandler || s.cfg.deleteUploadedFilesOnEnd)
              && s.trace <= r.trace && |r.trace| >= |s.trace| + 2
              && r.trace[|r.trace| - 1] == Next
              && r.trace[|r.trace| - 2] == SetBody(if s.body.Some? then Some(s.body.value.bytes) else None)
              && (MergeFormAttributes in r.trace[|s.trace|..] <==> s.cfg.mergeFormAttributes && s.expectMultipart)
    ensures var r := DoEnd(s, cancels);
            !s.failed ==>
              && r.trace[|s.trace|..]
                 == (if s.cfg.mergeFormAttributes && s.expectMultipart then [MergeFormAttributes] else [])
                    + [SetBody(if s.body.Some? then Some(s.body.value.bytes) else None), Next]
              && r.cleanup == s.cleanup
              && r.(bodyEndHandler := s.bodyEndHandler, body := s.body, trace := s.trace) == s
  {
    DoEndFacts(s, cancels);
    if !s.failed {
      DoEndAdds(s, cancels);
    }
  }

  /** On success `doEnd` adds exactly the publication and `next()`, and disposes of nothing. */
  lemma DoEndAdds(s: State, cancels: seq<bool>)
    requires !s.failed
    ensures DoEnd(s, cancels).trace[|s.trace|..] == Publication(s) + [Next]
    ensures Publication(s) + [Next]
            == (if s.cfg.mergeFormAttributes && s.expectMultipart then [MergeFormAttributes] else [])
               + [SetBody(if s.body.Some? then Some(s.body.value.bytes) else None), Next]
    ensures DoEnd(s, cancels).(bodyEndHandler := s.bodyEndHandler, body := s.body, trace := s.trace) == s
  {
    assert DoEnd(s, cancels).trace == s.trace + (Publication(s) + [Next]);
  }

  lemma DoEndFacts(s: State, cancels: seq<bool>)
    ensures var r := DoEnd(s, cancels);
            s.failed ==> r == Cleanup(s, cancels) && Nexts(r.trace) == Nexts(s.trace)
    ensures var r := DoEnd(s, cancels);
            !s.failed ==>
              && r.body.None? && Nexts(r.trace) == Nexts(s.trace) + 1
              && (r.bodyEndHandler <==> s.bodyEndHandler || s.cfg.deleteUploadedFilesOnEnd)
              && s.trace <= r.trace && |r.trace| >= |s.trace| + 2
              && r.trace[|r.trace| - 1] == Next
              && r.trace[|r.trace| - 2] == SetBody(if s.body.Some? then Some(s.body.value.bytes) else None)
              && (MergeFormAttributes in r.trace[|s.trace|..] <==> s.cfg.mergeFormAttributes && s.expectMultipart)
  {
    if s.failed {
      CleanupNoNext(s, cancels);
    } else {
      var r := DoEnd(s, cancels);
      PublicationSilent(s);
      SilentAppend(s.trace, Publication(s));
      AppendNext(s.trace + Publication(s));
      assert r.trace[|s.trace|..] == Publication(s) + [Next];
    }
  }

  /** A request exception cleans up and then reports: 400 with the cause for a
      decoding error, the exception itself otherwise; it never continues. */
  lemma ExceptionOutcome(s: State, error: Throwable, cancels: seq<bool>)
    ensures var r := OnException(s, error, cancels);
            && r.cleanup && r.(cleanup := s.cleanup, trace := s.trace) == s
            && r.trace == Cleanup(s, cancels).trace
                          + [Fail(if error.isDecoderException then StatusAndCause(400, error.cause) else Thrown(error))]
            && Nexts(r.trace) == Nexts(s.trace)
  {
    var f := if error.isDecoderException then Fail(StatusAndCause(400, error.cause)) else Fail(Thrown(error));
    CleanupNoNext(s, cancels);
    CountsAppend(Cleanup(s, cancels).trace, [f]);
    assert [f][..0] == [];
  }

  /** A request exception latches neither `failed` nor `ended`: when the request
      then ends with no upload pending, `next()` follows the reported failure. */
  lemma ExceptionThenEnd(s: State, error: Throwable, cancels: seq<bool>, later: seq<bool>)
    requires Inv(s) && !s.failed && !s.ended && s.uploadCount == 0
    ensures var t := OnException(s, error, cancels);
            !t.failed && !t.ended && Enabled(t, RequestEnd(later))
    ensures var r := End(OnException(s, error, cancels), later);
            && Fail(if error.isDecoderException then StatusAndCause(400, error.cause) else Thrown(error)) in r.trace
            && Nexts(r.trace) == 1 && r.trace[|r.trace| - 1] == Next
  {
    var f := Fail(if error.isDecoderException then StatusAndCause(400, error.cause) else Thrown(error));
    ExceptionOutcome(s, error, cancels);
    var t := OnException(s, error, cancels);
    assert t.trace[|t.trace| - 1] == f;
    var u := t.(ended := true);
    DoEndOutcome(u, later);
    assert End(t, later) == DoEnd(u, later);
    assert DoEnd(u, later).trace[|t.trace| - 1] == f;
  }

  /** A request that had already ended when the preflight admitted it gets no data
      or end handler; the upload and exception handlers the constructor installs
      stay. So whatever else it delivers, `ended` is never latched and `next()`
      is never called. */
  lemma UnsubscribedHandlerSilent(cfg: Config, req: Request, es: seq<Event>)
    requires ValidConfig(cfg) && Handle(cfg, req, false).Ingest? && !Handle(cfg, req, false).subscribe
    requires ValidRun(Start(cfg, req), es)
    requires forall i :: 0 <= i < |es| ==> !es[i].Chunk? && !es[i].RequestEnd?
    ensures req.isEnded
    ensures forall e :: e in Start(cfg, req).trace ==> e.MakeUploadDir?
    ensures !Run(Start(cfg, req), es).ended && Nexts(Run(Start(cfg, req), es).trace) == 0
  {
    NotEndedWithoutEnd(Start(cfg, req), es);
    CompletionGate(cfg, req, es);
  }

  /** Only the request's end latches `ended`. */
  lemma {:induction false} NotEndedWithoutEnd(s: State, es: seq<Event>)
    requires forall i :: 0 <= i < |es| ==> !es[i].RequestEnd?
    ensures Run(s, es).ended == s.ended
    decreases |es|
  {
    if es != [] {
      StepKeepsEnded(s, es[0]);
      NotEndedWithoutEnd(Step(s, es[0]), es[1..]);
    }
  }

  lemma StepKeepsEnded(s: State, e: Event)
    requires !e.RequestEnd?
    ensures Step(s, e).ended == s.ended
  {
    match e
    case Chunk(data, c) => ChunkKeepsEnded(s, data, c);
    case UploadBegin(part, uuid, c) => UploadKeepsEnded(s, part, uuid, c);
    case WriteComplete(i, outcome, c) => WriteKeepsEnded(s, i, outcome, c);
    case RequestException(error, c) => CleanupKeepsEnded(s, c);
    case BodyEnd(c) => CleanupKeepsEnded(s, c);
  }

  lemma ChunkKeepsEnded(s: State, data: seq<byte>, cancels: seq<bool>)
    ensures OnChunk(s, data, cancels).ended == s.ended
  {
    CleanupKeepsEnded(s.(uploadSize := s.uploadSize + |data|, failed := true), cancels);
  }

  lemma UploadKeepsEnded(s: State, part: Part, uuid: string, cancels: seq<bool>)
    ensures OnUpload(s, part, uuid, cancels).ended == s.ended
  {
    CleanupKeepsEnded(s.(failed := true), cancels);
  }

  lemma CleanupKeepsEnded(s: State, cancels: seq<bool>)
    ensures Cleanup(s, cancels).ended == s.ended
    ensures DoEnd(s, cancels).ended == s.ended
  {
  }

  lemma WriteKeepsEnded(s: State, i: nat, outcome: WriteOutcome, cancels: seq<bool>)
    ensures OnWriteComplete(s, i, outcome, cancels).ended == s.ended
  {
    var t := s.(writes := if i < |s.writes| then s.writes[i := if outcome.Succeeded? then Written else WriteFailed]
                          else s.writes);
    CleanupKeepsEnded(t, cancels);
    CleanupKeepsEnded(t.(uploadCount := t.uploadCount - 1), cancels);
  }

  // ----- the body is the concatenation of the accepted chunks -----

  /** The bytes of a sequence of chunks, in order. */
  function Flatten(cs: seq<seq<byte>>): seq<byte>
    decreases |cs|
  {
    if cs == [] then [] else cs[0] + Flatten(cs[1..])
  }

  /** The request delivering the chunks `cs`, one callback each. */
  function ChunkEvents(cs: seq<seq<byte>>, cancels: seq<bool>): seq<Event>
    decreases |cs|
  {
    if cs == [] then [] else [Chunk(cs[0], cancels)] + ChunkEvents(cs[1..], cancels)
  }

  /** A chunk within the limit is counted, and appended unless the request is multipart; nothing else changes. */
  lemma ChunkAccepted(s: State, data: seq<byte>, cancels: seq<bool>)
    requires !s.failed && (s.cfg.bodyLimit == -1 || s.uploadSize + |data| <= s.cfg.bodyLimit)
    ensures var r := OnChunk(s, data, cancels);
            && r.uploadSize == s.uploadSize + |data|
            && BodyBytes(r.body) == BodyBytes(s.body) + (if s.isMultipart then [] else data)
            && (r.body.Some? <==> s.body.Some? || !s.isMultipart)
            && r.(body := s.body, uploadSize := s.uploadSize) == s
  {
  }

  /** The first chunk that takes the count past the limit latches `failed`, runs
      the cleanup and reports 413; it is not appended. */
  lemma ChunkRejected(s: State, data: seq<byte>, cancels: seq<bool>)
    requires !s.failed && s.cfg.bodyLimit != -1 && s.uploadSize + |data| > s.cfg.bodyLimit
    ensures var r := OnChunk(s, data, cancels);
            && r.failed && r.cleanup && r.body == s.body && r.uploadSize == s.uploadSize + |data|
            && r.trace == Cleanup(s, cancels).trace + [Fail(Status(413))]
            && r.(failed := false, cleanup := s.cleanup, uploadSize := s.uploadSize, trace := s.trace) == s
  {
    CleanupFrame(s.(uploadSize := s.uploadSize + |data|, failed := true), cancels);
  }

  /** Once `failed` is latched, chunks change nothing: the count stops growing. */
  lemma {:induction false} FailedIgnoresChunks(s: State, cs: seq<seq<byte>>, cancels: seq<bool>)
    requires s.failed
    ensures Run(s, ChunkEvents(cs, cancels)) == s
    ensures !s.ended ==> ValidRun(s, ChunkEvents(cs, cancels))
    decreases |cs|
  {
    if cs != [] {
      var es := ChunkEvents(cs, cancels);
      assert es[0] == Chunk(cs[0], cancels);
      assert es[1..] == ChunkEvents(cs[1..], cancels);
      FailedIgnoresChunks(s, cs[1..], cancels);
    }
  }

  /** Delivering a non-empty list of chunks is delivering the first, then the rest. */
  lemma ChunkEventsCons(s: State, cs: seq<seq<byte>>, cancels: seq<bool>)
    requires cs != []
    ensures Run(s, ChunkEvents(cs, cancels)) == Run(OnChunk(s, cs[0], cancels), ChunkEvents(cs[1..], cancels))
    ensures !s.ended ==> (ValidRun(s, ChunkEvents(cs, cancels)) <==> ValidRun(OnChunk(s, cs[0], cancels), ChunkEvents(cs[1..], cancels)))
  {
    var es := ChunkEvents(cs, cancels);
    assert es[0] == Chunk(cs[0], cancels);
    assert es[1..] == ChunkEvents(cs[1..], cancels);
  }

  /** A first chunk beyond the limit fails the request; the rest is ignored. */
  lemma FeedRejected(s: State, cs: seq<seq<byte>>, cancels: seq<bool>)
    requires cs != [] && !s.failed && s.cfg.bodyLimit != -1 && s.uploadSize + |cs[0]| > s.cfg.bodyLimit
    ensures s.uploadSize + |Flatten(cs)| > s.cfg.bodyLimit
    ensures var r := Run(s, ChunkEvents(cs, cancels));
            && r.failed && Fail(Status(413)) in r.trace
            && r.ended == s.ended && r.uploadCount == s.uploadCount && r.writes == s.writes && r.cfg == s.cfg
    ensures !s.ended ==> ValidRun(s, ChunkEvents(cs, cancels))
  {
    assert Flatten(cs) == cs[0] + Flatten(cs[1..]);
    ChunkEventsCons(s, cs, cancels);
    var t := OnChunk(s, cs[0], cancels);
    ChunkRejected(s, cs[0], cancels);
    FailedIgnoresChunks(t, cs[1..], cancels);
  }

  /** Feeding chunks to a plain body: if their total stays within the limit the
      body grows by exactly their concatenation and nothing is reported;
      otherwise `failed` is latched and 413 reported. Either way the request is
      still running and no upload was touched. */
  lemma {:induction false} FeedChunks(s: State, cs: seq<seq<byte>>, cancels: seq<bool>)
    requires !s.failed && !s.isMultipart && (s.cfg.bodyLimit == -1 || s.uploadSize <= s.cfg.bodyLimit)
    ensures var r := Run(s, ChunkEvents(cs, cancels));
            s.cfg.bodyLimit == -1 || s.uploadSize + |Flatten(cs)| <= s.cfg.bodyLimit ==>
              && !r.failed
              && r.uploadSize == s.uploadSize + |Flatten(cs)|
              && BodyBytes(r.body) == BodyBytes(s.body) + Flatten(cs)
              && (r.body.Some? <==> s.body.Some? || cs != [])
              && r.trace == s.trace
    ensures var r := Run(s, ChunkEvents(cs, cancels));
            s.cfg.bodyLimit != -1 && s.uploadSize + |Flatten(cs)| > s.cfg.bodyLimit ==>
              r.failed && Fail(Status(413)) in r.trace
    ensures var r := Run(s, ChunkEvents(cs, cancels));
            r.ended == s.ended && r.uploadCount == s.uploadCount && r.writes == s.writes && r.cfg == s.cfg
    ensures !s.ended ==> ValidRun(s, ChunkEvents(cs, cancels))
    decreases |cs|, 1
  {
    if cs == [] {
    } else if s.cfg.bodyLimit != -1 && s.uploadSize + |cs[0]| > s.cfg.bodyLimit {
      FeedRejected(s, cs, cancels);
    } else {
      FeedAccepted(s, cs, cancels);
    }
  }

  /** A first chunk within the limit is appended; the rest is fed to the grown body. */
  lemma {:induction false} FeedAccepted(s: State, cs: seq<seq<byte>>, cancels: seq<bool>)
    requires !s.failed && !s.isMultipart && cs != []
    requires s.cfg.bodyLimit == -1 || s.uploadSize + |cs[0]| <= s.cfg.bodyLimit
    ensures var r := Run(s, ChunkEvents(cs, cancels));
            s.cfg.bodyLimit == -1 || s.uploadSize + |Flatten(cs)| <= s.cfg.bodyLimit ==>
              && !r.failed
              && r.uploadSize == s.uploadSize + |Flatten(cs)|
              && BodyBytes(r.body) == BodyBytes(s.body) + Flatten(cs)
              && (r.body.Some? <==> s.body.Some? || cs != [])
              && r.trace == s.trace
    ensures var r := Run(s, ChunkEvents(cs, cancels));
            s.cfg.bodyLimit != -1 && s.uploadSize + |Flatten(cs)| > s.cfg.bodyLimit ==>
              r.failed && Fail(Status(413)) in r.trace
    ensures var r := Run(s, ChunkEvents(cs, cancels));
            r.ended == s.ended && r.uploadCount == s.uploadCount && r.writes == s.writes && r.cfg == s.cfg
    ensures !s.ended ==> ValidRun(s, ChunkEvents(cs, cancels))
    decreases |cs|, 0
  {
    ChunkEventsCons(s, cs, cancels);
    var t := OnChunk(s, cs[0], cancels);
    assert Flatten(cs) == cs[0] + Flatten(cs[1..]);
    ChunkAccepted(s, cs[0], cancels);
    FeedChunks(t, cs[1..], cancels);
    assert BodyBytes(s.body) + cs[0] + Flatten(cs[1..]) == BodyBytes(s.body) + Flatten(cs);
  }

  /** The request's end with no upload pending: the failure latch is kept, and
      when nothing failed the last two effects publish the body and continue. */
  lemma EndWithoutUploads(t: State, cancels: seq<bool>)
    requires t.uploadCount == 0
    ensures End(t, cancels).failed == t.failed && End(t, cancels).ended && End(t, cancels).uploadCount == 0
    ensures var tr := End(t, cancels).trace;
            !t.failed ==> |tr| >= 2 && tr[|tr| - 1] == Next && tr[|tr| - 2] == SetBody(if t.body.Some? then Some(t.body.value.bytes) else None)
  {
    if t.failed {
      CleanupFrame(t.(ended := true), cancels);
    }
  }

  lemma RunOne(s: State, e: Event)
    ensures Run(s, [e]) == Step(s, e)
    ensures ValidRun(s, [e]) <==> Enabled(s, e)
  {
    assert [e][1..] == [];
  }

  /** The end of a request whose chunks were all counted, seen through the invariant. */
  lemma EndOfPlainBody(t: State, cancels: seq<bool>, r: State)
    requires t.uploadCount == 0 && r == End(t, cancels) && Inv(r)
    ensures !t.failed ==> && Nexts(r.trace) == 1
                          && |r.trace| >= 2 && r.trace[|r.trace| - 1] == Next
                          && r.trace[|r.trace| - 2] == SetBody(if t.body.Some? then Some(t.body.value.bytes) else None)
    ensures t.failed ==> Nexts(r.trace) == 0 && Fail(Status(413)) in r.trace
  {
    EndWithoutUploads(t, cancels);
  }

  /** A fresh plain-body handler fed `cs` and then the request's end. */
  lemma PlainRun(s0: State, cs: seq<seq<byte>>, cancels: seq<bool>)
    requires Inv(s0) && !s0.isMultipart && !s0.failed && !s0.ended && s0.uploadCount == 0
    requires s0.uploadSize == 0 && BodyBytes(s0.body) == []
    ensures var r := Run(s0, ChunkEvents(cs, cancels) + [RequestEnd(cancels)]);
            s0.cfg.bodyLimit == -1 || |Flatten(cs)| <= s0.cfg.bodyLimit ==>
              && Nexts(r.trace) == 1
              && |r.trace| >= 2 && r.trace[|r.trace| - 1] == Next
              && r.trace[|r.trace| - 2] == SetBody(if cs != [] || s0.body.Some? then Some(Flatten(cs)) else None)
    ensures var r := Run(s0, ChunkEvents(cs, cancels) + [RequestEnd(cancels)]);
            s0.cfg.bodyLimit != -1 && |Flatten(cs)| > s0.cfg.bodyLimit ==>
              Nexts(r.trace) == 0 && Fail(Status(413)) in r.trace
  {
    var chunks := ChunkEvents(cs, cancels);
    FeedChunks(s0, cs, cancels);
    var t := Run(s0, chunks);
    var es := chunks + [RequestEnd(cancels)];
    RunAppend(s0, chunks, [RequestEnd(cancels)]);
    RunOne(t, RequestEnd(cancels));
    var r := Run(s0, es);
    assert r == End(t, cancels);
    RunInv(s0, es);
    if s0.cfg.bodyLimit == -1 || |Flatten(cs)| <= s0.cfg.bodyLimit {
      PlainEnd(t, cancels, r, Flatten(cs), cs != [] || s0.body.Some?);
    } else {
      EndOfPlainBody(t, cancels, r);
    }
  }

  /** The end of a plain body that nothing failed, named by its bytes and presence. */
  lemma PlainEnd(t: State, cancels: seq<bool>, r: State, bytes: seq<byte>, present: bool)
    requires t.uploadCount == 0 && r == End(t, cancels) && Inv(r) && !t.failed
    requires BodyBytes(t.body) == bytes && (t.body.Some? <==> present)
    ensures Nexts(r.trace) == 1 && |r.trace| >= 2 && r.trace[|r.trace| - 1] == Next
    ensures r.trace[|r.trace| - 2] == SetBody(if present then Some(bytes) else None)
  {
    EndOfPlainBody(t, cancels, r);
  }

  /** A plain body request admitted by the preflight: when its chunks stay
      within the limit, the next handler is called once, right after the body is
      set to exactly the concatenation of the chunks; otherwise 413 is reported
      and the next handler is never called. */
  lemma PlainBodyDelivered(cfg: Config, req: Request, cs: seq<seq<byte>>, cancels: seq<bool>)
    requires ValidConfig(cfg) && Handle(cfg, req, false).Ingest? && !Start(cfg, req).isMultipart
    ensures var r := Run(Start(cfg, req), ChunkEvents(cs, cancels) + [RequestEnd(cancels)]);
            cfg.bodyLimit == -1 || |Flatten(cs)| <= cfg.bodyLimit ==>
              && Nexts(r.trace) == 1
              && |r.trace| >= 2 && r.trace[|r.trace| - 1] == Next
              && r.trace[|r.trace| - 2]
                 == SetBody(if cs != [] || Start(cfg, req).contentLength != -1 then Some(Flatten(cs)) else None)
    ensures var r := Run(Start(cfg, req), ChunkEvents(cs, cancels) + [RequestEnd(cancels)]);
            cfg.bodyLimit != -1 && |Flatten(cs)| > cfg.bodyLimit ==>
              Nexts(r.trace) == 0 && Fail(Status(413)) in r.trace
  {
    var s0 := Start(cfg, req);
    InitInv(cfg, req, Handle(cfg, req, false).handlerLength);
    PlainRun(s0, cs, cancels);
  }
}
