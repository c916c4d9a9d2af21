/** The Telegram Bot API as both upload paths use it: choosing the send
    endpoint from the MIME type, the multipart form they post, the shape of the
    API's answers, and how a file id is read back out of an answer. The HTTP
    requests themselves are foreign calls; their outcomes are inputs here. */
module Telegram {
  import opened Common
  import opened Platform

  datatype Endpoint = SendPhoto | SendAudio | SendVideo | SendDocument

  /** The form field that carries the file for each endpoint. */
  function FieldName(e: Endpoint): string {
    match e
    case SendPhoto => "photo"
    case SendAudio => "audio"
    case SendVideo => "video"
    case SendDocument => "document"
  }

  /** Routing by MIME prefix, tried in the order image/, audio/, video/. */
  function Route(mimeType: string): (e: Endpoint)
    ensures e == SendPhoto <==> StartsWith(mimeType, "image/")
    ensures e == SendAudio <==> !StartsWith(mimeType, "image/") && StartsWith(mimeType, "audio/")
    ensures e == SendVideo <==>
      !StartsWith(mimeType, "image/") && !StartsWith(mimeType, "audio/") && StartsWith(mimeType, "video/")
    ensures e == SendDocument <==>
      !StartsWith(mimeType, "image/") && !StartsWith(mimeType, "audio/") && !StartsWith(mimeType, "video/")
  {
    if StartsWith(mimeType, "image/") then SendPhoto
    else if StartsWith(mimeType, "audio/") then SendAudio
    else if StartsWith(mimeType, "video/") then SendVideo
    else SendDocument
  }

  // ---------------------------------------------------------------------------
  // Multipart forms

  datatype FormValue = Text(text: string) | FileValue(file: File)
  datatype FormEntry = FormEntry(name: string, value: FormValue)
  type FormData = seq<FormEntry>

  /** `formData.get(name)`: the first entry with that name, or null. */
  function FormGet(form: FormData, name: string): (r: Option<FormValue>)
    ensures r.Some? <==> exists i :: 0 <= i < |form| && form[i].name == name
    ensures r.Some? ==> exists i :: 0 <= i < |form| && form[i] == FormEntry(name, r.value)
  {
    if form == [] then None
    else if form[0].name == name then Some(form[0].value)
    else
      var r := FormGet(form[1..], name);
      assert forall i :: 1 <= i < |form| ==> form[i] == form[1..][i - 1];
      r
  }

  /** `append(name, value)` of a value read with `get`: a null is sent as the text "null". */
  function OrNull(v: Option<FormValue>): FormValue {
    if v.Some? then v.value else Text("null")
  }

  predicate IsMediaField(name: string) {
    name == "photo" || name == "audio" || name == "video" || name == "document"
  }

  /** The number of entries of the form that carry a media field. */
  function MediaFieldCount(form: FormData): nat {
    if form == [] then 0
    else (if IsMediaField(form[0].name) then 1 else 0) + MediaFieldCount(form[1..])
  }

  /** The form both upload paths post: `chat_id` first, then the file under the endpoint's field. */
  function MediaForm(chatId: string, e: Endpoint, file: File): FormData {
    [FormEntry("chat_id", Text(chatId)), FormEntry(FieldName(e), FileValue(file))]
  }

  /** Builds the Bot API form by successive `append` calls and picks the endpoint. */
  method BuildTelegramForm(chatId: string, file: File) returns (form: FormData, endpoint: Endpoint)
    ensures endpoint == Route(file.mimeType)
    ensures form == MediaForm(chatId, endpoint, file)
    ensures FormGet(form, "chat_id") == Some(Text(chatId))
    ensures FormGet(form, FieldName(endpoint)) == Some(FileValue(file))
    ensures MediaFieldCount(form) == 1
  {
    form := [];
    form := form + [FormEntry("chat_id", Text(chatId))];
    if StartsWith(file.mimeType, "image/") {
      form := form + [FormEntry("photo", FileValue(file))];
      endpoint := SendPhoto;
    } else if StartsWith(file.mimeType, "audio/") {
      form := form + [FormEntry("audio", FileValue(file))];
      endpoint := SendAudio;
    } else if StartsWith(file.mimeType, "video/") {
      form := form + [FormEntry("video", FileValue(file))];
      endpoint := SendVideo;
    } else {
      form := form + [FormEntry("document", FileValue(file))];
      endpoint := SendDocument;
    }
    assert form[1..][1..] == [];
    assert MediaFieldCount(form[1..]) == 1;
  }

  // ---------------------------------------------------------------------------
  // Answers of the Bot API

  /** One entry of `result.photo`; `file_size` may be missing. */
  datatype PhotoSize = PhotoSize(fileId: string, fileSize: Option<int>)
  datatype TgFile = TgFile(fileId: string)

  datatype TgMessage = TgMessage(
    messageId: Option<int>,
    photo: Option<seq<PhotoSize>>,
    document: Option<TgFile>,
    video: Option<TgFile>,
    audio: Option<TgFile>)

  /** The parsed JSON body of an answer. */
  datatype TgBody = TgBody(ok: bool, result: Option<TgMessage>, description: Option<string>)

  /** What one `fetch` to the Bot API comes to: it throws (network failure or a
      body that is not JSON), or it answers with `response.ok` and a body. */
  datatype Attempt = Threw(message: string) | Answered(httpOk: bool, body: TgBody)

  /** `data?.result?.message_id`. */
  function MessageIdOf(body: TgBody): Option<int> {
    if body.result.Some? then body.result.value.messageId else None
  }

  /** `data.description || fallback`. */
  function DescriptionOr(body: TgBody, fallback: string): string {
    if PresentText(body.description) then body.description.value else fallback
  }

  /** `prev.file_size > current.file_size`; a missing size makes the comparison false. */
  predicate Larger(a: PhotoSize, b: PhotoSize) {
    a.fileSize.Some? && b.fileSize.Some? && a.fileSize.value > b.fileSize.value
  }

  predicate AllSized(ps: seq<PhotoSize>) {
    forall j :: 0 <= j < |ps| ==> ps[j].fileSize.Some?
  }

  /** The index `photo.reduce((prev, cur) => prev.file_size > cur.file_size ? prev : cur)` selects:
      every later entry is strictly smaller, and when every entry has a size the
      selected one is the largest (ties go to the later entry). */
  function BestPhoto(ps: seq<PhotoSize>): (k: nat)
    requires |ps| > 0
    ensures k < |ps|
    ensures forall j :: k < j < |ps| ==> Larger(ps[k], ps[j])
    ensures AllSized(ps) ==> forall j :: 0 <= j < |ps| ==> ps[j].fileSize.value <= ps[k].fileSize.value
  {
    if |ps| == 1 then 0
    else
      var init := ps[..|ps| - 1];
      var p := BestPhoto(init);
      assert forall j :: 0 <= j < |init| ==> init[j] == ps[j];
      if Larger(ps[p], ps[|ps| - 1]) then p else |ps| - 1
  }

  /** The outcome of `getFileId`: an id, null, or the TypeError that `reduce`
      throws on an empty `photo` array. */
  datatype FileIdLookup = Found(id: string) | NoFileId | ReduceThrew

  /** `getFileId`: nothing unless `ok` and `result` are present; otherwise the
      largest photo, else the document, the video, the audio, in that order. */
  function GetFileId(body: TgBody): (r: FileIdLookup)
    ensures !body.ok || body.result.None? ==> r == NoFileId
    ensures r == ReduceThrew <==> body.ok && body.result.Some? && body.result.value.photo == Some([])
    ensures r.Found? && body.result.value.photo.Some? ==>
      var ps := body.result.value.photo.value;
      exists k :: 0 <= k < |ps| && r.id == ps[k].fileId && forall j :: k < j < |ps| ==> Larger(ps[k], ps[j])
    ensures r.Found? && body.result.value.photo.Some? ==>
      var ps := body.result.value.photo.value;
      |ps| > 0 && r.id == ps[BestPhoto(ps)].fileId
    ensures r.Found? && body.result.value.photo.None? ==>
      var m := body.result.value;
      if m.document.Some? then r.id == m.document.value.fileId
      else if m.video.Some? then r.id == m.video.value.fileId
      else m.audio.Some? && r.id == m.audio.value.fileId
    ensures r == NoFileId && body.ok && body.result.Some? ==>
      var m := body.result.value;
      m.photo.None? && m.document.None? && m.video.None? && m.audio.None?
  {
    if !body.ok || body.result.None? then NoFileId
    else
      var m := body.result.value;
      if m.photo.Some? then
        if |m.photo.value| == 0 then ReduceThrew else Found(m.photo.value[BestPhoto(m.photo.value)].fileId)
      else if m.document.Some? then Found(m.document.value.fileId)
      else if m.video.Some? then Found(m.video.value.fileId)
      else if m.audio.Some? then Found(m.audio.value.fileId)
      else NoFileId
  }

  /** The message `reduce` throws for an empty array with no initial value. */
  const REDUCE_OF_EMPTY_ARRAY := "Reduce of empty array with no initial value"

  /** One request sent to the Bot API: the endpoint and the posted form. */
  datatype Call = Call(endpoint: Endpoint, form: FormData)
}
