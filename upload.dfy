/** `POST /upload`: a one-shot upload of a form's `file` to R2 or to Telegram,
    with a bounded retry towards Telegram and a catalog record on success. */
module DirectUpload {
  import opened Common
  import opened Platform
  import opened Telegram

  /** The number of retries `sendToTelegram` allows after its first request. */
  const MAX_RETRIES: nat := 2

  /** What `sendToTelegram` reports: the answer of an OK response, or a failure text. */
  datatype Sent = Delivered(data: TgBody, messageId: Option<int>) | SendFailed(error: string)

  /** The report together with the requests sent, in order. */
  datatype Transcript = Transcript(result: Sent, calls: seq<Call>)

  /** The retry form for a photo: `chat_id` and the photo, now under `document`. */
  function DocumentRetryForm(form: FormData): (r: FormData)
    ensures FormGet(r, "chat_id") == Some(OrNull(FormGet(form, "chat_id")))
    ensures FormGet(r, "document") == Some(OrNull(FormGet(form, "photo")))
    ensures MediaFieldCount(r) == 1
  {
    var r := [FormEntry("chat_id", OrNull(FormGet(form, "chat_id"))), FormEntry("document", OrNull(FormGet(form, "photo")))];
    assert r[1..][1..] == [];
    assert MediaFieldCount(r[1..]) == 1;
    r
  }

  /** `sendToTelegram(formData, apiEndpoint, env, retryCount)`; the fetch made at
      retry level k ends as `attempts[k]`. An OK response is success whatever its
      body says; a non-OK one is retried, as a document, only for a photo; a
      throw is retried unchanged; each retry raises `retryCount`. */
  function SendToTelegram(form: FormData, endpoint: Endpoint, attempts: seq<Attempt>, retryCount: nat): (t: Transcript)
    requires retryCount <= MAX_RETRIES && |attempts| == MAX_RETRIES + 1
    ensures 1 <= |t.calls| <= MAX_RETRIES + 1 - retryCount
    ensures t.calls[0] == Call(endpoint, form)
    ensures forall k :: 0 <= k < |t.calls| ==>
      t.calls[k].endpoint == endpoint || (endpoint == SendPhoto && t.calls[k].endpoint == SendDocument)
    ensures var last := attempts[retryCount + |t.calls| - 1];
      t.result.Delivered? <==> last.Answered? && last.httpOk
    ensures var last := attempts[retryCount + |t.calls| - 1];
      t.result.Delivered? ==> t.result.data == last.body && t.result.messageId == MessageIdOf(last.body)
    ensures attempts[retryCount + |t.calls| - 1].Threw? ==> t.result == SendFailed("Network error occurred")
    ensures attempts[retryCount + |t.calls| - 1].Threw? ==> retryCount + |t.calls| - 1 == MAX_RETRIES
    ensures var last := attempts[retryCount + |t.calls| - 1];
      last.Answered? && !last.httpOk ==> t.result == SendFailed(DescriptionOr(last.body, "Upload to Telegram failed"))
    ensures attempts[retryCount].Answered? && attempts[retryCount].httpOk ==> |t.calls| == 1
    ensures attempts[retryCount].Answered? && !attempts[retryCount].httpOk ==>
      if endpoint == SendPhoto && retryCount < MAX_RETRIES then
        |t.calls| >= 2 && t.calls[1] == Call(SendDocument, DocumentRetryForm(form))
      else
        t == Transcript(SendFailed(DescriptionOr(attempts[retryCount].body, "Upload to Telegram failed")), [Call(endpoint, form)])
    ensures attempts[retryCount].Threw? && retryCount < MAX_RETRIES ==>
      |t.calls| >= 2 && t.calls[1] == Call(endpoint, form)
    decreases MAX_RETRIES - retryCount
  {
    var call := Call(endpoint, form);
    match attempts[retryCount]
    case Answered(httpOk, responseData) =>
      if httpOk then
        Transcript(Delivered(responseData, MessageIdOf(responseData)), [call])
      else if retryCount < MAX_RETRIES && endpoint == SendPhoto then
        var rest := SendToTelegram(DocumentRetryForm(form), SendDocument, attempts, retryCount + 1);
        Transcript(rest.result, [call] + rest.calls)
      else
        Transcript(SendFailed(DescriptionOr(responseData, "Upload to Telegram failed")), [call])
    case Threw(_) =>
      if retryCount < MAX_RETRIES then
        var rest := SendToTelegram(form, endpoint, attempts, retryCount + 1);
        Transcript(rest.result, [call] + rest.calls)
      else
        Transcript(SendFailed("Network error occurred"), [call])
  }

  /** A request that carries the chat id and the file, under the field its endpoint expects. */
  predicate CarriesFile(c: Call, chatId: string, file: File) {
    FormGet(c.form, "chat_id") == Some(Text(chatId)) && FormGet(c.form, FieldName(c.endpoint)) == Some(FileValue(file))
  }

  /** Every request of a send carries the chat id and the file of the first
      form, under the field its endpoint expects. */
  lemma {:induction false} RetriesCarryFile(form: FormData, endpoint: Endpoint, attempts: seq<Attempt>,
                                            retryCount: nat, chatId: string, file: File)
    requires retryCount <= MAX_RETRIES && |attempts| == MAX_RETRIES + 1
    requires CarriesFile(Call(endpoint, form), chatId, file)
    ensures var calls := SendToTelegram(form, endpoint, attempts, retryCount).calls;
      forall k :: 0 <= k < |calls| ==> CarriesFile(calls[k], chatId, file)
    decreases MAX_RETRIES - retryCount
  {
    var a := attempts[retryCount];
    if retryCount < MAX_RETRIES && !(a.Answered? && a.httpOk) && (a.Threw? || endpoint == SendPhoto) {
      var retryEndpoint := if a.Answered? then SendDocument else endpoint;
      var retryForm := if a.Answered? then DocumentRetryForm(form) else form;
      if a.Answered? {
        DocumentRetryCarries(form, chatId, file);
      }
      RetriesCarryFile(retryForm, retryEndpoint, attempts, retryCount + 1, chatId, file);
      RetryCarries(form, endpoint, attempts, retryCount, chatId, file);
    } else {
      SingleCallCarries(form, endpoint, attempts, retryCount, chatId, file);
    }
  }

  /** A retried send carries the file in every request once its retry does. */
  lemma RetryCarries(form: FormData, endpoint: Endpoint, attempts: seq<Attempt>, retryCount: nat,
                     chatId: string, file: File)
    requires retryCount < MAX_RETRIES && |attempts| == MAX_RETRIES + 1
    requires !(attempts[retryCount].Answered? && attempts[retryCount].httpOk)
    requires attempts[retryCount].Threw? || endpoint == SendPhoto
    requires CarriesFile(Call(endpoint, form), chatId, file)
    requires var a := attempts[retryCount];
      var retryEndpoint := if a.Answered? then SendDocument else endpoint;
      var retryForm := if a.Answered? then DocumentRetryForm(form) else form;
      var rest := SendToTelegram(retryForm, retryEndpoint, attempts, retryCount + 1).calls;
      forall k :: 0 <= k < |rest| ==> CarriesFile(rest[k], chatId, file)
    ensures var calls := SendToTelegram(form, endpoint, attempts, retryCount).calls;
      forall k :: 0 <= k < |calls| ==> CarriesFile(calls[k], chatId, file)
  {
    var a := attempts[retryCount];
    var retryEndpoint := if a.Answered? then SendDocument else endpoint;
    var retryForm := if a.Answered? then DocumentRetryForm(form) else form;
    RetryPrepends(form, endpoint, attempts, retryCount);
    PrependCarries(Call(endpoint, form), SendToTelegram(retryForm, retryEndpoint, attempts, retryCount + 1).calls, chatId, file);
  }

  /** A send that is not retried makes its one request only. */
  lemma SingleCallCarries(form: FormData, endpoint: Endpoint, attempts: seq<Attempt>, retryCount: nat,
                          chatId: string, file: File)
    requires retryCount <= MAX_RETRIES && |attempts| == MAX_RETRIES + 1
    requires var a := attempts[retryCount];
      !(retryCount < MAX_RETRIES && !(a.Answered? && a.httpOk) && (a.Threw? || endpoint == SendPhoto))
    requires CarriesFile(Call(endpoint, form), chatId, file)
    ensures var calls := SendToTelegram(form, endpoint, attempts, retryCount).calls;
      forall k :: 0 <= k < |calls| ==> CarriesFile(calls[k], chatId, file)
  {
    assert SendToTelegram(form, endpoint, attempts, retryCount).calls == [Call(endpoint, form)];
  }

  /** The document retry form of a photo request carries what the photo request carried. */
  lemma DocumentRetryCarries(form: FormData, chatId: string, file: File)
    requires CarriesFile(Call(SendPhoto, form), chatId, file)
    ensures CarriesFile(Call(SendDocument, DocumentRetryForm(form)), chatId, file)
  {
  }

  lemma PrependCarries(c: Call, rest: seq<Call>, chatId: string, file: File)
    requires CarriesFile(c, chatId, file)
    requires forall k :: 0 <= k < |rest| ==> CarriesFile(rest[k], chatId, file)
    ensures forall k :: 0 <= k < |[c] + rest| ==> CarriesFile(([c] + rest)[k], chatId, file)
  {
  }

  /** A retried send is the first request followed by the requests of the retry. */
  lemma RetryPrepends(form: FormData, endpoint: Endpoint, attempts: seq<Attempt>, retryCount: nat)
    requires retryCount < MAX_RETRIES && |attempts| == MAX_RETRIES + 1
    requires !(attempts[retryCount].Answered? && attempts[retryCount].httpOk)
    requires attempts[retryCount].Threw? || endpoint == SendPhoto
    ensures var a := attempts[retryCount];
      var retryEndpoint := if a.Answered? then SendDocument else endpoint;
      var retryForm := if a.Answered? then DocumentRetryForm(form) else form;
      SendToTelegram(form, endpoint, attempts, retryCount).calls
        == [Call(endpoint, form)] + SendToTelegram(retryForm, retryEndpoint, attempts, retryCount + 1).calls
  {
  }

  /** A send that starts on a photo and meets a non-OK answer and then only
      throws makes three requests: the photo, then the document twice. */
  lemma PhotoThenNetworkErrors(form: FormData, body: TgBody)
    ensures var t := SendToTelegram(form, SendPhoto, [Answered(false, body), Threw("reset"), Threw("reset")], 0);
      && t.result == SendFailed("Network error occurred")
      && |t.calls| == 3
      && t.calls[1] == t.calls[2] == Call(SendDocument, DocumentRetryForm(form))
  {
    var attempts := [Answered(false, body), Threw("reset"), Threw("reset")];
    var last := SendToTelegram(DocumentRetryForm(form), SendDocument, attempts, 2);
    var middle := SendToTelegram(DocumentRetryForm(form), SendDocument, attempts, 1);
    assert middle.calls == [Call(SendDocument, DocumentRetryForm(form))] + last.calls;
  }

  // ---------------------------------------------------------------------------
  // The handler

  /** One element of the reply array: `{ src }`. */
  datatype Src = Src(src: string)

  /** The catalog metadata of a direct upload (no `totalChunks`, no `chunked`). */
  function DirectMeta(file: File, now: int, mode: StorageMode, r2Key: Option<string>, messageId: Option<int>): (m: CatalogMeta)
    ensures m.fileName == file.name && m.fileSize == |file.bytes| && m.timeStamp == now
    ensures m.totalChunks.None? && m.storageType == mode
    ensures m.r2Key == r2Key && m.telegramMessageId == messageId
  {
    CatalogMeta(
      timeStamp := now, listType := "None", labelValue := "None", liked := false,
      fileName := file.name, fileSize := |file.bytes|, totalChunks := None,
      storageType := mode, r2Key := r2Key, telegramMessageId := messageId)
  }

  /** The Telegram path up to the catalog write: the file id to record, or the
      error reply (`!result.success`, the `reduce` TypeError, or no file id). */
  function TelegramFileId(f: File, chatId: string, attempts: seq<Attempt>): (r: Reply<string>)
    requires |attempts| == MAX_RETRIES + 1
    ensures var endpoint := Route(f.mimeType);
      var sent := SendToTelegram(MediaForm(chatId, endpoint, f), endpoint, attempts, 0).result;
      && (sent.SendFailed? ==> r == Err(500, BackendFailed(sent.error)))
      && (sent.Delivered? && GetFileId(sent.data) == ReduceThrew ==> r == Err(500, BackendFailed(REDUCE_OF_EMPTY_ARRAY)))
      && (sent.Delivered? && (GetFileId(sent.data) == NoFileId || GetFileId(sent.data) == Found("")) ==>
            r == Err(500, FileIdMissing))
      && (r.Ok? <==> sent.Delivered? && GetFileId(sent.data).Found? && GetFileId(sent.data).id != "")
      && (r.Ok? ==> sent.data.ok && r == Ok(GetFileId(sent.data).id))
  {
    var endpoint := Route(f.mimeType);
    var sent := SendToTelegram(MediaForm(chatId, endpoint, f), endpoint, attempts, 0).result;
    if sent.SendFailed? then Err(500, BackendFailed(sent.error))
    else match GetFileId(sent.data)
      case ReduceThrew => Err(500, BackendFailed(REDUCE_OF_EMPTY_ARRAY))
      case NoFileId => Err(500, FileIdMissing)
      case Found(id) => if id == "" then Err(500, FileIdMissing) else Ok(id)
  }

  /** `uploadToR2` of the direct upload: the object under `r2_<now>_<random>.<ext>`
      with the file's own type, then (when the namespace is bound) the catalog
      record under `r2:<object key>`. A failing `R2_BUCKET.put` is not modelled. */
  method UploadToR2(kv: Namespace?, bucket: R2Bucket, file: File, ext: string, now: int, random: string)
    returns (reply: Reply<seq<Src>>)
    modifies kv, bucket
    ensures var objectKey := R2ObjectKey(now, random, ext);
      && bucket.objects == old(bucket.objects)[objectKey := R2Object(file.bytes, file.mimeType, file.name, DecimalString(now))]
      && reply == Ok([Src("/file/r2:" + objectKey)])
      && (kv != null ==>
            kv.entries == old(kv.entries)[CatalogKey("r2:" + objectKey) :=
              CatalogRecord(DirectMeta(file, now, R2, Some(objectKey), None))] &&
            kv.ops == old(kv.ops) + [PutOp(CatalogKey("r2:" + objectKey))])
  {
    var fileId := "r2_" + DecimalString(now) + "_" + random;
    var objectKey := fileId + "." + ext;
    bucket.Put(objectKey, R2Object(file.bytes, file.mimeType, file.name, DecimalString(now)));
    if kv != null {
      kv.Put(CatalogKey("r2:" + objectKey), CatalogRecord(DirectMeta(file, now, R2, Some(objectKey), None)));
    }
    reply := Ok([Src("/file/r2:" + objectKey)]);
  }

  /** The handler. `file` is the form's `file` field, `storageMode` its
      `storageMode` field, `attempts` the outcomes of the Bot API requests. */
  method HandleUpload(kv: Namespace?, r2: R2Bucket?, file: Option<File>, storageMode: Option<string>,
                      chatId: string, attempts: seq<Attempt>, now: int, random: string)
    returns (reply: Reply<seq<Src>>)
    requires |attempts| == MAX_RETRIES + 1
    modifies kv, r2
    ensures file.None? ==>
      reply == Err(500, NoFileUploaded) &&
      (kv != null ==> kv.entries == old(kv.entries) && kv.ops == old(kv.ops)) &&
      (r2 != null ==> r2.objects == old(r2.objects))
    ensures file.Some? && ModeOf(storageMode) == R2 && r2 == null ==>
      reply == Err(500, R2NotConfigured) &&
      (kv != null ==> kv.entries == old(kv.entries) && kv.ops == old(kv.ops))
    ensures file.Some? && ModeOf(storageMode) == R2 && r2 != null ==>
      var objectKey := R2ObjectKey(now, random, Extension(file.value.name));
      && reply == Ok([Src("/file/r2:" + objectKey)])
      && r2.objects == old(r2.objects)[objectKey :=
           R2Object(file.value.bytes, file.value.mimeType, file.value.name, DecimalString(now))]
      && (kv != null ==>
            kv.entries == old(kv.entries)[CatalogKey("r2:" + objectKey) :=
              CatalogRecord(DirectMeta(file.value, now, R2, Some(objectKey), None))])
    ensures file.Some? && ModeOf(storageMode) == Telegram ==>
      var f := file.value;
      var sent := SendToTelegram(MediaForm(chatId, Route(f.mimeType), f), Route(f.mimeType), attempts, 0).result;
      var outcome := TelegramFileId(f, chatId, attempts);
      && (r2 != null ==> r2.objects == old(r2.objects))
      && (outcome.Err? ==>
            reply == Err(outcome.status, outcome.error) &&
            (kv != null ==> kv.entries == old(kv.entries) && kv.ops == old(kv.ops)))
      && (outcome.Ok? ==>
            var key := outcome.body + "." + Extension(f.name);
            reply == Ok([Src("/file/" + key)]) &&
            (kv != null ==>
              kv.entries == old(kv.entries)[CatalogKey(key) :=
                CatalogRecord(DirectMeta(f, now, Telegram, None, TruthyNumber(sent.messageId)))]))
  {
    if file.None? {
      return Err(500, NoFileUploaded);
    }
    var uploadFile := file.value;
    var fileName := uploadFile.name;
    var fileExtension := Extension(fileName);
    var mode := if PresentText(storageMode) then storageMode.value else "telegram";
    if mode == "r2" {
      assert ModeOf(storageMode) == R2;
      if r2 == null {
        return Err(500, R2NotConfigured);
      }
      reply := UploadToR2(kv, r2, uploadFile, fileExtension, now, random);
      return;
    }
    assert ModeOf(storageMode) == Telegram;
    reply := UploadViaTelegram(kv, uploadFile, fileExtension, chatId, attempts, now);
    assert r2 != null ==> r2.objects == old(r2.objects);
  }

  /** The Telegram path of the handler: build the form, send it, read the file
      id, and record `<fileId>.<ext>` in the catalog when the namespace is bound. */
  method UploadViaTelegram(kv: Namespace?, uploadFile: File, fileExtension: string, chatId: string,
                           attempts: seq<Attempt>, now: int)
    returns (reply: Reply<seq<Src>>)
    requires |attempts| == MAX_RETRIES + 1
    modifies kv
    ensures var sent := SendToTelegram(MediaForm(chatId, Route(uploadFile.mimeType), uploadFile),
                                       Route(uploadFile.mimeType), attempts, 0).result;
      var outcome := TelegramFileId(uploadFile, chatId, attempts);
      && (outcome.Err? ==>
            reply == Err(outcome.status, outcome.error) &&
            (kv != null ==> kv.entries == old(kv.entries) && kv.ops == old(kv.ops)))
      && (outcome.Ok? ==>
            var key := outcome.body + "." + fileExtension;
            reply == Ok([Src("/file/" + key)]) &&
            (kv != null ==>
              kv.entries == old(kv.entries)[CatalogKey(key) :=
                CatalogRecord(DirectMeta(uploadFile, now, Telegram, None, TruthyNumber(sent.messageId)))] &&
              kv.ops == old(kv.ops) + [PutOp(CatalogKey(key))]))
  {
    var telegramFormData, apiEndpoint := BuildTelegramForm(chatId, uploadFile);
    var result := SendToTelegram(telegramFormData, apiEndpoint, attempts, 0).result;
    if result.SendFailed? {
      return Err(500, BackendFailed(result.error));
    }
    var lookup := GetFileId(result.data);
    if lookup.ReduceThrew? {
      return Err(500, BackendFailed(REDUCE_OF_EMPTY_ARRAY));
    }
    var messageId := result.messageId;
    if lookup.NoFileId? || lookup.id == "" {
      return Err(500, FileIdMissing);
    }
    var key := lookup.id + "." + fileExtension;
    if kv != null {
      kv.Put(CatalogKey(key), CatalogRecord(DirectMeta(uploadFile, now, Telegram, None, TruthyNumber(messageId))));
    }
    reply := Ok([Src("/file/" + key)]);
  }
}
