/** `POST /api/chunked-upload/complete`: checks that every chunk arrived, joins
    the chunks in index order, hands the file to R2 or to Telegram, writes one
    catalog record and then removes the session's staging keys. */
module ChunkComplete {
  import opened Common
  import opened Platform
  import opened Telegram

  // ---------------------------------------------------------------------------
  // Missing indices

  /** The indices in [0, total) that are not in `uploaded`, in ascending order. */
  function MissingChunks(uploaded: seq<int>, total: int): (r: seq<int>)
    ensures StrictlyAscending(r)
    ensures forall x :: x in r <==> 0 <= x < total && x !in uploaded
    ensures forall k :: 0 <= k < |r| ==> r[k] < total
    decreases total
  {
    if total <= 0 then []
    else
      var init := MissingChunks(uploaded, total - 1);
      if total - 1 in uploaded then init else init + [total - 1]
  }

  /** `getMissingChunks`: walks 0 .. total - 1 and pushes each index not uploaded. */
  method GetMissingChunks(uploaded: seq<int>, total: int) returns (missing: seq<int>)
    ensures missing == MissingChunks(uploaded, total)
    ensures StrictlyAscending(missing)
    ensures forall x :: x in missing <==> 0 <= x < total && x !in uploaded
  {
    missing := [];
    var i := 0;
    while i < total
      invariant 0 <= i && (i <= total || i == 0)
      invariant missing == MissingChunks(uploaded, i)
    {
      assert MissingChunks(uploaded, i + 1)
        == if i in uploaded then MissingChunks(uploaded, i) else MissingChunks(uploaded, i) + [i];
      if i !in uploaded {
        missing := missing + [i];
      }
      i := i + 1;
    }
    MissingChunksMeaning(uploaded, total);
  }

  /** The properties of `MissingChunks` at one argument pair, stated apart so
      that the loop's proof does not carry them. */
  lemma MissingChunksMeaning(uploaded: seq<int>, total: int)
    ensures StrictlyAscending(MissingChunks(uploaded, total))
    ensures forall x :: x in MissingChunks(uploaded, total) <==> 0 <= x < total && x !in uploaded
  {
  }

  /** In a strictly ascending integer sequence, positions j > i are at least
      j - i apart in value. */
  lemma {:induction false} AscendingGap(s: seq<int>, i: int, j: int)
    requires StrictlyAscending(s) && 0 <= i <= j < |s|
    ensures s[j] - s[i] >= j - i
    decreases j - i
  {
    if i < j {
      AscendingGap(s, i, j - 1);
      assert s[j - 1] < s[j];
    }
  }

  /** The count check is enough only together with range and uniqueness: a
      duplicate-free index list whose entries all lie in [0, total) and whose
      length is `total` is exactly 0, 1, ..., total - 1. */
  lemma CountMatchMeansCoverage(uploaded: seq<int>, total: int)
    requires StrictlyAscending(uploaded)
    requires forall k :: 0 <= k < |uploaded| ==> 0 <= uploaded[k] < total
    requires |uploaded| == total
    ensures uploaded == Upto(total)
    ensures MissingChunks(uploaded, total) == []
  {
    var n := |uploaded|;
    forall k | 0 <= k < n
      ensures uploaded[k] == k
    {
      AscendingGap(uploaded, 0, k);
      AscendingGap(uploaded, k, n - 1);
    }
    forall x | 0 <= x < total
      ensures x in uploaded
    {
      assert uploaded[x] == x;
    }
    NothingMissing(uploaded, total);
  }

  /** When every index below `total` was uploaded, nothing is missing. */
  lemma {:induction false} NothingMissing(uploaded: seq<int>, total: int)
    requires forall x :: 0 <= x < total ==> x in uploaded
    ensures MissingChunks(uploaded, total) == []
    decreases total
  {
    if total > 0 {
      NothingMissing(uploaded, total - 1);
    }
  }

  /** An index outside [0, total) lets the count check pass with a chunk missing:
      indices 0 and 5 for a two-chunk session. */
  lemma StrayIndexPassesCountCheck()
    ensures var uploaded := [0, 5];
      |uploaded| == 2 && MissingChunks(uploaded, 2) == [1]
  {
    var uploaded := [0, 5];
    assert MissingChunks(uploaded, 1) == [];
  }

  // ---------------------------------------------------------------------------
  // Reassembly

  predicate AllChunksPresent(entries: map<Key, Value>, uploadId: string, total: int) {
    forall i :: 0 <= i < total ==> BlobOf(entries, uploadId, i).Some?
  }

  /** The bytes of chunks 0 .. n - 1, in index order. */
  function Joined(entries: map<Key, Value>, uploadId: string, n: int): seq<byte>
    requires AllChunksPresent(entries, uploadId, n)
    decreases n
  {
    if n <= 0 then [] else Joined(entries, uploadId, n - 1) + BlobOf(entries, uploadId, n - 1).value
  }

  /** The lowest index in [i, n) whose chunk blob is absent, if any. */
  function FirstLostFrom(entries: map<Key, Value>, uploadId: string, i: int, n: int): (r: Option<int>)
    ensures r.None? <==> forall j :: i <= j < n ==> BlobOf(entries, uploadId, j).Some?
    ensures r.Some? ==>
      i <= r.value < n && BlobOf(entries, uploadId, r.value).None? &&
      forall j :: i <= j < r.value ==> BlobOf(entries, uploadId, j).Some?
    decreases n - i
  {
    if i >= n then None
    else if BlobOf(entries, uploadId, i).None? then Some(i)
    else FirstLostFrom(entries, uploadId, i + 1, n)
  }

  /** A `Blob` built from a list of parts: the parts one after the other. */
  function Flatten(parts: seq<seq<byte>>): seq<byte> {
    if parts == [] then [] else Flatten(parts[..|parts| - 1]) + parts[|parts| - 1]
  }

  datatype Assembly = Assembled(bytes: seq<byte>) | Lost(index: int)

  /** The reassembly loop: reads chunks 0 .. total - 1 in order, stops at the
      first absent one, and otherwise joins them. */
  method Reassemble(kv: Namespace, uploadId: string, total: int) returns (a: Assembly)
    ensures a.Assembled? <==> AllChunksPresent(kv.entries, uploadId, total)
    ensures a.Assembled? ==> a.bytes == Joined(kv.entries, uploadId, total)
    ensures a.Lost? ==> Some(a.index) == FirstLostFrom(kv.entries, uploadId, 0, total)
  {
    var chunks: seq<seq<byte>> := [];
    var i := 0;
    while i < total
      invariant 0 <= i && (i <= total || i == 0)
      invariant |chunks| == i
      invariant AllChunksPresent(kv.entries, uploadId, i)
      invariant Flatten(chunks) == Joined(kv.entries, uploadId, i)
    {
      var chunkData := BlobOf(kv.entries, uploadId, i);
      if chunkData.None? {
        return Lost(i);
      }
      assert chunks + [chunkData.value] == (chunks + [chunkData.value])[..i] + [chunkData.value];
      chunks := chunks + [chunkData.value];
      assert chunks[..|chunks| - 1] == chunks[..i];
      i := i + 1;
    }
    a := Assembled(Flatten(chunks));
  }

  // ---------------------------------------------------------------------------
  // The Telegram adapter of the completion endpoint

  /** What `uploadToTelegram` reports: success with the file id `getFileId`
      found (null when it found none) and the message id, or a failure text. */
  datatype TgOutcome = Uploaded(fileId: Option<string>, messageId: Option<int>) | UploadFailed(error: string)

  /** The outcome together with the requests sent, in order. */
  datatype TgUpload = TgUpload(outcome: TgOutcome, calls: seq<Call>)

  /** An attempt the adapter takes as success: `response.ok && data.ok`. */
  predicate Accepted(a: Attempt) {
    a.Answered? && a.httpOk && a.body.ok
  }

  /** Reading the file id out of an accepted answer; the `reduce` of an empty
      photo array throws inside the adapter's `try` and becomes a failure. */
  function Settle(b: TgBody): (r: TgOutcome)
    ensures r.UploadFailed? <==> GetFileId(b) == ReduceThrew
    ensures r.Uploaded? ==> r.messageId == MessageIdOf(b)
    ensures r.Uploaded? ==> (r.fileId.Some? <==> GetFileId(b).Found?)
    ensures r.Uploaded? && r.fileId.Some? ==> GetFileId(b) == Found(r.fileId.value)
  {
    match GetFileId(b)
    case Found(id) => Uploaded(Some(id), MessageIdOf(b))
    case NoFileId => Uploaded(None, MessageIdOf(b))
    case ReduceThrew => UploadFailed(REDUCE_OF_EMPTY_ARRAY)
  }

  /** `uploadToTelegram`: one send on the routed endpoint; a photo that is not
      accepted is sent once more as a document. `first` and `fallback` are the
      outcomes of the two possible requests. */
  function UploadToTelegram(file: File, chatId: string, first: Attempt, fallback: Attempt): (r: TgUpload)
    ensures 1 <= |r.calls| <= 2
    ensures var e := Route(file.mimeType); r.calls[0] == Call(e, MediaForm(chatId, e, file))
    ensures |r.calls| == 2 <==>
      Route(file.mimeType) == SendPhoto && first.Answered? && !Accepted(first)
    ensures |r.calls| == 2 ==> r.calls[1] == Call(SendDocument, MediaForm(chatId, SendDocument, file))
    ensures Accepted(first) ==> r.outcome == Settle(first.body)
    ensures |r.calls| == 2 && Accepted(fallback) ==> r.outcome == Settle(fallback.body)
    ensures |r.calls| == 2 && fallback.Threw? ==> r.outcome == UploadFailed(fallback.message)
    ensures first.Threw? ==> r.outcome == UploadFailed(first.message)
    ensures r.outcome.Uploaded? ==>
      Accepted(first) || (|r.calls| == 2 && Accepted(fallback) && r.outcome == Settle(fallback.body))
    ensures first.Answered? && !Accepted(first) && !(|r.calls| == 2 && (fallback.Threw? || Accepted(fallback))) ==>
      r.outcome == UploadFailed(DescriptionOr(first.body, "Upload failed"))
  {
    var e := Route(file.mimeType);
    var call := Call(e, MediaForm(chatId, e, file));
    match first
    case Threw(message) => TgUpload(UploadFailed(message), [call])
    case Answered(httpOk, data) =>
      if !httpOk || !data.ok then
        var failed := UploadFailed(DescriptionOr(data, "Upload failed"));
        if e == SendPhoto then
          var retry := Call(SendDocument, MediaForm(chatId, SendDocument, file));
          match fallback
          case Threw(message) => TgUpload(UploadFailed(message), [call, retry])
          case Answered(docOk, docData) =>
            if docOk && docData.ok then TgUpload(Settle(docData), [call, retry])
            else TgUpload(failed, [call, retry])
        else TgUpload(failed, [call])
      else TgUpload(Settle(data), [call])
  }

  /** The catalog key as written: `${result.fileId}.${fileExtension}`, where a
      null file id is rendered as the text "null". */
  function TelegramFileKeyAsWritten(fileId: Option<string>, ext: string): (key: string)
    ensures fileId.None? ==> key == "null." + ext
    ensures fileId.Some? ==> key == fileId.value + "." + ext
  {
    (if fileId.Some? then fileId.value else "null") + "." + ext
  }

  /** The catalog key with the guard the direct upload applies: no key without
      a (non-empty) file id. */
  function TelegramFileKey(fileId: Option<string>, ext: string): (key: Option<string>)
    ensures key.Some? <==> PresentText(fileId)
    ensures key.Some? ==>
      |key.value| == |fileId.value| + 1 + |ext| &&
      key.value[..|fileId.value|] == fileId.value && key.value[|fileId.value|..] == "." + ext
  {
    if PresentText(fileId) then Some(fileId.value + "." + ext) else None
  }

  /** An accepted photo answer that carries no file at all (a message with
      neither photo, document, video nor audio) makes the code as written
      write the catalog key "null.png"; the guarded key refuses it. */
  lemma NullFileIdBecomesKey(chatId: string, bytes: seq<byte>, fallback: Attempt)
    ensures var answer := TgBody(true, Some(TgMessage(Some(42), None, None, None, None)), None);
      var up := UploadToTelegram(File("cat.png", "image/png", bytes), chatId, Answered(true, answer), fallback);
      && up.outcome == Uploaded(None, Some(42))
      && TelegramFileKeyAsWritten(up.outcome.fileId, Extension("cat.png")) == "null.png"
      && TelegramFileKey(up.outcome.fileId, Extension("cat.png")) == None
  {
    var answer := TgBody(true, Some(TgMessage(Some(42), None, None, None, None)), None);
    assert GetFileId(answer) == NoFileId;
    PngExtension();
  }

  lemma PngExtension()
    ensures Extension("cat.png") == "png"
  {
    assert AfterLastDot("cat.png") == "png" by {
      assert AfterLastDot("cat.p") == "p" by {
        assert AfterLastDot("cat.") == "";
      }
      assert "cat.png"[..6] == "cat.pn";
      assert "cat.pn"[..5] == "cat.p";
    }
    assert ToLower("png") == "png";
  }

  // ---------------------------------------------------------------------------
  // The R2 adapter

  /** The `Content-Type` R2 is given: `file.type || 'application/octet-stream'`. */
  function ContentTypeOr(mimeType: string): (r: string)
    ensures r != ""
    ensures mimeType != "" ==> r == mimeType
  {
    if mimeType != "" then mimeType else "application/octet-stream"
  }

  /** `uploadToR2` of the completion endpoint: stores the object under
      `r2_<now>_<random>.<ext>` and answers the catalog key `r2:<object key>`. */
  method UploadToR2(bucket: R2Bucket, file: File, ext: string, now: int, random: string) returns (fileKey: string)
    modifies bucket
    ensures bucket.objects == old(bucket.objects)[R2ObjectKey(now, random, ext) :=
      R2Object(file.bytes, ContentTypeOr(file.mimeType), file.name, DecimalString(now))]
    ensures fileKey == "r2:" + R2ObjectKey(now, random, ext)
  {
    var fileId := "r2_" + DecimalString(now) + "_" + random;
    var objectKey := fileId + "." + ext;
    bucket.Put(objectKey, R2Object(file.bytes, ContentTypeOr(file.mimeType), file.name, DecimalString(now)));
    fileKey := "r2:" + objectKey;
  }

  // ---------------------------------------------------------------------------
  // Cleanup of the staging keys

  /** `chunk:<id>:0` .. `chunk:<id>:<n-1>`. */
  function ChunkKeys(uploadId: string, n: int): (r: seq<Key>)
    ensures |r| == if n <= 0 then 0 else n
    ensures forall i :: 0 <= i < |r| ==> r[i] == ChunkKey(uploadId, i)
    decreases n
  {
    if n <= 0 then [] else ChunkKeys(uploadId, n - 1) + [ChunkKey(uploadId, n - 1)]
  }

  /** The keys `cleanupUploadTask` deletes, in the order it deletes them. */
  function StagingKeys(uploadId: string, total: int): seq<Key> {
    [UploadKey(uploadId)] + ChunkKeys(uploadId, total)
  }

  /** How many of the deletes take effect when the delete numbered `failAt`
      (0 for the session record) throws: the exception ends the loop. */
  function CleanupCount(total: int, failAt: Option<nat>): (n: nat)
    ensures n <= 1 + (if total <= 0 then 0 else total)
    ensures failAt.None? ==> n == 1 + (if total <= 0 then 0 else total)
  {
    var all := 1 + (if total <= 0 then 0 else total);
    if failAt.Some? && failAt.value < all then failAt.value else all
  }

  /** The keys of a sequence, as a set. */
  function KeySet(keys: seq<Key>): (r: set<Key>)
    ensures forall k :: k in r <==> k in keys
  {
    if keys == [] then {} else KeySet(keys[..|keys| - 1]) + {keys[|keys| - 1]}
  }

  function Deletes(keys: seq<Key>): (ops: seq<StoreOp>)
    ensures |ops| == |keys|
  {
    if keys == [] then [] else Deletes(keys[..|keys| - 1]) + [DeleteOp(keys[|keys| - 1])]
  }

  /** One more delete: the removed set and the delete log each grow by the key. */
  lemma DeleteStep(m: map<Key, Value>, log: seq<StoreOp>, done: seq<Key>, k: Key)
    ensures m - KeySet(done) - {k} == m - KeySet(done + [k])
    ensures log + Deletes(done) + [DeleteOp(k)] == log + Deletes(done + [k])
  {
    var next := done + [k];
    assert next[..|next| - 1] == done;
  }

  /** Where the cleanup stops: at the delete that throws, or after all of them. */
  lemma CleanupCountAt(total: int, failAt: Option<nat>, attempt: int)
    requires 0 <= attempt <= 1 + (if total <= 0 then 0 else total)
    ensures Throws(failAt, attempt) ==> CleanupCount(total, failAt) == attempt
    ensures attempt == 1 + (if total <= 0 then 0 else total) && ThrowsAfter(failAt, attempt - 1) ==>
      CleanupCount(total, failAt) == attempt
  {
  }

  lemma ChunkKeysStep(uploadId: string, i: int)
    requires 0 <= i
    ensures [UploadKey(uploadId)] + ChunkKeys(uploadId, i + 1) ==
            [UploadKey(uploadId)] + ChunkKeys(uploadId, i) + [ChunkKey(uploadId, i)]
  {
  }

  /** The first j + 1 staging keys: the session record and chunks 0 .. j - 1. */
  lemma StagingPrefix(uploadId: string, total: int, j: int)
    requires 0 <= j && (j <= total || j == 0)
    ensures StagingKeys(uploadId, total)[..j + 1] == [UploadKey(uploadId)] + ChunkKeys(uploadId, j)
  {
    assert ChunkKeys(uploadId, total)[..j] == ChunkKeys(uploadId, j);
  }

  /** Whether the delete numbered `attempt` is the one that throws. */
  predicate Throws(failAt: Option<nat>, attempt: int) {
    failAt.Some? && failAt.value == attempt
  }

  /** Whether the throwing delete, if any, comes after delete number `attempt`. */
  predicate ThrowsAfter(failAt: Option<nat>, attempt: int) {
    failAt.None? || failAt.value > attempt
  }

  /** `cleanupUploadTask`: deletes `upload:<id>` and then every chunk key; a
      delete that throws ends the loop, and the error is swallowed. */
  method CleanupUploadTask(kv: Namespace, uploadId: string, totalChunks: int, failAt: Option<nat>)
    modifies kv
    ensures var done := StagingKeys(uploadId, totalChunks)[..CleanupCount(totalChunks, failAt)];
      kv.entries == old(kv.entries) - KeySet(done) &&
      kv.ops == old(kv.ops) + Deletes(done)
  {
    if Throws(failAt, 0) {
      CleanupCountAt(totalChunks, failAt, 0);
      return;
    }
    kv.Delete(UploadKey(uploadId));
    ghost var done := [UploadKey(uploadId)];
    DeleteStep(old(kv.entries), old(kv.ops), [], UploadKey(uploadId));
    var i := 0;
    while i < totalChunks
      invariant 0 <= i && (i <= totalChunks || i == 0)
      invariant ThrowsAfter(failAt, i)
      invariant done == [UploadKey(uploadId)] + ChunkKeys(uploadId, i)
      invariant kv.entries == old(kv.entries) - KeySet(done)
      invariant kv.ops == old(kv.ops) + Deletes(done)
    {
      if Throws(failAt, i + 1) {
        CleanupCountAt(totalChunks, failAt, i + 1);
        StagingPrefix(uploadId, totalChunks, i);
        return;
      }
      kv.Delete(ChunkKey(uploadId, i));
      DeleteStep(old(kv.entries), old(kv.ops), done, ChunkKey(uploadId, i));
      ChunkKeysStep(uploadId, i);
      done := done + [ChunkKey(uploadId, i)];
      i := i + 1;
    }
    CleanupCountAt(totalChunks, failAt, i + 1);
    StagingPrefix(uploadId, totalChunks, i);
  }

  // ---------------------------------------------------------------------------
  // The decision the handler reaches

  /** Where the file went: an R2 object key, or the Telegram catalog key and message id. */
  datatype Destination = ToR2(objectKey: string) | ToTelegram(fileKey: string, messageId: Option<int>)

  /** The catalog key (`fileKey`) for a destination. */
  function CatalogName(d: Destination): string {
    match d
    case ToR2(objectKey) => "r2:" + objectKey
    case ToTelegram(fileKey, _) => fileKey
  }

  /** The outcome of a completion request before any write: an error reply,
      or the session, the destination and the assembled bytes. */
  datatype Decision =
    | Refuse(status: int, error: ErrorKind)
    | Commit(task: UploadTask, dest: Destination, bytes: seq<byte>)

  /** The metadata of the catalog record a completed chunked upload writes. */
  function ChunkedMeta(task: UploadTask, now: int, dest: Destination): (m: CatalogMeta)
    ensures m.fileName == task.fileName && m.fileSize == task.fileSize
    ensures m.totalChunks == Some(task.totalChunks) && m.timeStamp == now
    ensures m.storageType == R2 <==> dest.ToR2?
    ensures m.r2Key.Some? <==> dest.ToR2?
    ensures dest.ToR2? ==> m.r2Key == Some(dest.objectKey)
    ensures m.telegramMessageId.Some? ==> dest.ToTelegram?
    ensures dest.ToTelegram? ==> m.telegramMessageId == dest.messageId
  {
    var key := CatalogName(dest);
    var r2Key := if dest.ToR2? then Some(StripR2Prefix(key)) else None;
    assert dest.ToR2? ==> StartsWith(key, "r2:") && key == "r2:" + StripR2Prefix(key);
    CatalogMeta(
      timeStamp := now, listType := "None", labelValue := "None", liked := false,
      fileName := task.fileName, fileSize := task.fileSize,
      totalChunks := Some(task.totalChunks),
      storageType := if dest.ToR2? then R2 else Telegram,
      r2Key := r2Key,
      telegramMessageId := if dest.ToTelegram? then dest.messageId else None)
  }

  /** What a completion request comes to, for the stored entries, whether the R2
      binding exists, the Telegram outcomes, the clock and the random suffix. */
  function Decide(entries: map<Key, Value>, uploadId: Option<string>, r2Bound: bool, chatId: string,
                  first: Attempt, fallback: Attempt, now: int, random: string): (d: Decision)
    ensures !PresentText(uploadId) ==> d == Refuse(400, MissingUploadId)
    ensures PresentText(uploadId) && TaskOf(entries, uploadId.value).None? ==> d == Refuse(404, SessionNotFound)
    ensures PresentText(uploadId) && TaskOf(entries, uploadId.value).Some? ==>
      var t := TaskOf(entries, uploadId.value).value;
      |t.uploadedChunks| != t.totalChunks ==>
        d == Refuse(400, IncompleteUpload(|t.uploadedChunks|, t.totalChunks, MissingChunks(t.uploadedChunks, t.totalChunks)))
    ensures PresentText(uploadId) && TaskOf(entries, uploadId.value).Some? ==>
      var id, t := uploadId.value, TaskOf(entries, uploadId.value).value;
      |t.uploadedChunks| == t.totalChunks ==>
        match FirstLostFrom(entries, id, 0, t.totalChunks)
        case Some(i) => d == Refuse(500, ChunkLost(i))
        case None =>
          var bytes := Joined(entries, id, t.totalChunks);
          var ext := Extension(t.fileName);
          if t.storageMode == R2 then
            d == if r2Bound then Commit(t, ToR2(R2ObjectKey(now, random, ext)), bytes) else Refuse(500, R2NotConfigured)
          else
            var o := UploadToTelegram(File(t.fileName, BlobType(t.fileType), bytes), chatId, first, fallback).outcome;
            && (o.UploadFailed? ==> d == Refuse(500, BackendFailed(o.error)))
            && (o.Uploaded? && TelegramFileKey(o.fileId, ext).None? ==> d == Refuse(500, FileIdMissing))
            && (o.Uploaded? && TelegramFileKey(o.fileId, ext).Some? ==>
                  d == Commit(t, ToTelegram(TelegramFileKey(o.fileId, ext).value, TruthyNumber(o.messageId)), bytes))
    ensures d.Refuse? && d.error.ChunkLost? ==>
      var t := TaskOf(entries, uploadId.value).value;
      d.status == 500 && 0 <= d.error.index < t.totalChunks &&
      BlobOf(entries, uploadId.value, d.error.index).None? &&
      forall j :: 0 <= j < d.error.index ==> BlobOf(entries, uploadId.value, j).Some?
    ensures d.Commit? ==>
      && PresentText(uploadId)
      && TaskOf(entries, uploadId.value) == Some(d.task)
      && |d.task.uploadedChunks| == d.task.totalChunks
      && AllChunksPresent(entries, uploadId.value, d.task.totalChunks)
      && d.bytes == Joined(entries, uploadId.value, d.task.totalChunks)
      && (d.dest.ToR2? <==> d.task.storageMode == R2)
    ensures d.Commit? && d.dest.ToR2? ==>
      r2Bound && d.dest.objectKey == R2ObjectKey(now, random, Extension(d.task.fileName))
    ensures d.Commit? && d.dest.ToTelegram? ==>
      var file := File(d.task.fileName, BlobType(d.task.fileType), d.bytes);
      var o := UploadToTelegram(file, chatId, first, fallback).outcome;
      o.Uploaded? && TelegramFileKey(o.fileId, Extension(d.task.fileName)) == Some(d.dest.fileKey) &&
      d.dest.messageId == TruthyNumber(o.messageId)
    ensures d.Refuse? && d.error == R2NotConfigured ==> !r2Bound
    ensures d.Refuse? ==> d.status == 400 || d.status == 404 || d.status == 500
  {
    if !PresentText(uploadId) then Refuse(400, MissingUploadId)
    else
      var id := uploadId.value;
      match TaskOf(entries, id)
      case None => Refuse(404, SessionNotFound)
      case Some(t) =>
        if |t.uploadedChunks| != t.totalChunks then
          Refuse(400, IncompleteUpload(|t.uploadedChunks|, t.totalChunks, MissingChunks(t.uploadedChunks, t.totalChunks)))
        else match FirstLostFrom(entries, id, 0, t.totalChunks)
          case Some(i) => Refuse(500, ChunkLost(i))
          case None =>
            var bytes := Joined(entries, id, t.totalChunks);
            var ext := Extension(t.fileName);
            if t.storageMode == R2 then
              if !r2Bound then Refuse(500, R2NotConfigured)
              else Commit(t, ToR2(R2ObjectKey(now, random, ext)), bytes)
            else
              var file := File(t.fileName, BlobType(t.fileType), bytes);
              match UploadToTelegram(file, chatId, first, fallback).outcome
              case UploadFailed(e) => Refuse(500, BackendFailed(e))
              case Uploaded(fileId, messageId) =>
                match TelegramFileKey(fileId, ext)
                case None => Refuse(500, FileIdMissing)
                case Some(key) => Commit(t, ToTelegram(key, TruthyNumber(messageId)), bytes)
  }

  /** The reply body of a completed upload. */
  datatype CompleteBody = CompleteBody(src: string, fileName: string, fileSize: int)

  /** The handler. A refusal writes and deletes nothing, so the session and its
      chunks survive for a retry. A commit puts the object (R2), writes exactly
      one catalog record and then runs the cleanup. */
  method HandleComplete(kv: Namespace, r2: R2Bucket?, uploadId: Option<string>, chatId: string,
                        first: Attempt, fallback: Attempt, now: int, random: string, failAt: Option<nat>)
    returns (reply: Reply<CompleteBody>)
    modifies kv, r2
    ensures var d := Decide(old(kv.entries), uploadId, r2 != null, chatId, first, fallback, now, random);
      d.Refuse? ==>
        reply == Err(d.status, d.error) &&
        kv.entries == old(kv.entries) && kv.ops == old(kv.ops) &&
        (r2 != null ==> r2.objects == old(r2.objects))
    ensures var d := Decide(old(kv.entries), uploadId, r2 != null, chatId, first, fallback, now, random);
      d.Commit? ==>
        var key := CatalogName(d.dest);
        var done := StagingKeys(uploadId.value, d.task.totalChunks)[..CleanupCount(d.task.totalChunks, failAt)];
        && reply == Ok(CompleteBody("/file/" + key, d.task.fileName, d.task.fileSize))
        && kv.entries == old(kv.entries)[CatalogKey(key) := CatalogRecord(ChunkedMeta(d.task, now, d.dest))]
                           - KeySet(done)
        && kv.ops == old(kv.ops) + [PutOp(CatalogKey(key))] + Deletes(done)
        && (d.dest.ToR2? ==> r2 != null && r2.objects == old(r2.objects)[d.dest.objectKey :=
              R2Object(d.bytes, ContentTypeOr(BlobType(d.task.fileType)), d.task.fileName, DecimalString(now))])
        && (d.dest.ToTelegram? && r2 != null ==> r2.objects == old(r2.objects))
  {
    ghost var d := Decide(kv.entries, uploadId, r2 != null, chatId, first, fallback, now, random);
    if !PresentText(uploadId) {
      return Err(400, MissingUploadId);
    }
    var id := uploadId.value;
    var taskData := TaskOf(kv.entries, id);
    if taskData.None? {
      return Err(404, SessionNotFound);
    }
    var task := taskData.value;
    if |task.uploadedChunks| != task.totalChunks {
      var missing := GetMissingChunks(task.uploadedChunks, task.totalChunks);
      return Err(400, IncompleteUpload(|task.uploadedChunks|, task.totalChunks, missing));
    }
    var assembly := Reassemble(kv, id, task.totalChunks);
    if assembly.Lost? {
      return Err(500, ChunkLost(assembly.index));
    }
    var file := File(task.fileName, BlobType(task.fileType), assembly.bytes);
    var fileExtension := Extension(task.fileName);
    var fileKey: string;
    var dest: Destination;
    if task.storageMode == R2 {
      if r2 == null {
        return Err(500, R2NotConfigured);
      }
      fileKey := UploadToR2(r2, file, fileExtension, now, random);
      dest := ToR2(R2ObjectKey(now, random, fileExtension));
    } else {
      var result := UploadToTelegram(file, chatId, first, fallback).outcome;
      if result.UploadFailed? {
        return Err(500, BackendFailed(result.error));
      }
      var key := TelegramFileKey(result.fileId, fileExtension);
      if key.None? {
        return Err(500, FileIdMissing);
      }
      fileKey := key.value;
      dest := ToTelegram(fileKey, TruthyNumber(result.messageId));
    }
    assert d == Commit(task, dest, assembly.bytes);
    ghost var stored := old(kv.entries)[CatalogKey(fileKey) := CatalogRecord(ChunkedMeta(task, now, dest))];
    ghost var logged := old(kv.ops) + [PutOp(CatalogKey(fileKey))];
    kv.Put(CatalogKey(fileKey), CatalogRecord(ChunkedMeta(task, now, dest)));
    assert kv.entries == stored && kv.ops == logged;
    CleanupUploadTask(kv, id, task.totalChunks, failAt);
    reply := Ok(CompleteBody("/file/" + fileKey, task.fileName, task.fileSize));
  }

  /** After a commit whose cleanup ran to the end, no staging key of the session
      is left and the catalog record is in place. */
  lemma CommitPurgesStaging(entries: map<Key, Value>, uploadId: string, total: int, key: string, meta: CatalogMeta)
    ensures var after := entries[CatalogKey(key) := CatalogRecord(meta)]
                         - KeySet(StagingKeys(uploadId, total)[..CleanupCount(total, None)]);
      && UploadKey(uploadId) !in after
      && (forall i :: 0 <= i < total ==> ChunkKey(uploadId, i) !in after)
      && after[CatalogKey(key)] == CatalogRecord(meta)
      && (forall k :: k in entries && k != CatalogKey(key) && k != UploadKey(uploadId) &&
                      !(k.ChunkKey? && k.uploadId == uploadId && 0 <= k.index < total) ==>
            k in after && after[k] == entries[k])
  {
    var keys := StagingKeys(uploadId, total);
    assert keys[..CleanupCount(total, None)] == keys;
    StagingKeysOfSession(uploadId, total);
  }

  /** The staging keys are exactly the session record and its chunks 0 .. total - 1. */
  lemma StagingKeysOfSession(uploadId: string, total: int)
    ensures forall k :: k in StagingKeys(uploadId, total) <==>
      k == UploadKey(uploadId) || (k.ChunkKey? && k.uploadId == uploadId && 0 <= k.index < total)
  {
    var keys := StagingKeys(uploadId, total);
    assert keys[0] == UploadKey(uploadId);
    forall i | 0 <= i < total
      ensures ChunkKey(uploadId, i) in keys
    {
      assert keys[i + 1] == ChunkKey(uploadId, i);
    }
    forall k | k in keys
      ensures k == UploadKey(uploadId) || (k.ChunkKey? && k.uploadId == uploadId && 0 <= k.index < total)
    {
      var i :| 0 <= i < |keys| && keys[i] == k;
      if i > 0 {
        assert keys[i] == ChunkKey(uploadId, i - 1);
      }
    }
  }
}
