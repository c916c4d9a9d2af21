/** `POST /api/chunked-upload/init` opens an upload session and
    `GET /api/chunked-upload/init?uploadId=` reports it. */
module ChunkInit {
  import opened Common
  import opened Platform

  /** The chunk size the client is told to use. */
  const CHUNK_SIZE: int := 5 * 1024 * 1024
  /** The largest declared file size a session may be opened for. */
  const MAX_FILE_SIZE: int := 100 * 1024 * 1024
  /** The number of random bytes behind an upload id. */
  const UPLOAD_ID_BYTES: int := 16

  /** The JSON body of an init request; a missing field is None. */
  datatype InitRequest = InitRequest(
    fileName: Option<string>,
    fileSize: Option<int>,
    fileType: Option<string>,
    totalChunks: Option<int>,
    storageMode: Option<string>)

  datatype InitBody = InitBody(uploadId: string, chunkSize: int)

  /** The two checks made before anything is written: required fields, then the size cap. */
  function CheckInit(req: InitRequest): (r: Option<ErrorKind>)
    ensures r == Some(MissingParameters) <==>
      !PresentText(req.fileName) || !PresentNumber(req.fileSize) || !PresentNumber(req.totalChunks)
    ensures r == Some(FileTooLarge) <==>
      PresentText(req.fileName) && PresentNumber(req.totalChunks) &&
      PresentNumber(req.fileSize) && req.fileSize.value > MAX_FILE_SIZE
    ensures r == None || r == Some(MissingParameters) || r == Some(FileTooLarge)
  {
    if !PresentText(req.fileName) || !PresentNumber(req.fileSize) || !PresentNumber(req.totalChunks) then
      Some(MissingParameters)
    else if req.fileSize.value > MAX_FILE_SIZE then
      Some(FileTooLarge)
    else
      None
  }

  /** The session record a valid request opens. */
  function NewTask(req: InitRequest, uploadId: string, now: int): (t: UploadTask)
    requires CheckInit(req) == None
    ensures t.uploadId == uploadId && t.createdAt == now
    ensures t.fileName == req.fileName.value && t.fileSize == req.fileSize.value
    ensures t.fileType == req.fileType && t.totalChunks == req.totalChunks.value
    ensures t.fileName != "" && t.totalChunks != 0 && 0 != t.fileSize <= MAX_FILE_SIZE
    ensures t.storageMode == R2 <==> req.storageMode == Some("r2")
    ensures t.uploadedChunks == [] && t.status == "pending"
  {
    UploadTask(
      uploadId := uploadId,
      fileName := req.fileName.value,
      fileSize := req.fileSize.value,
      fileType := req.fileType,
      totalChunks := req.totalChunks.value,
      storageMode := ModeOf(req.storageMode),
      uploadedChunks := [],
      createdAt := now,
      status := "pending")
  }

  // ---------------------------------------------------------------------------
  // Upload ids: 16 random bytes, each written as two lower-case hex digits

  predicate IsLowerHex(c: char) {
    '0' <= c <= '9' || 'a' <= c <= 'f'
  }

  function HexValue(c: char): int
    requires IsLowerHex(c)
  {
    if c <= '9' then c as int - '0' as int else c as int - 'a' as int + 10
  }

  function HexDigit(v: int): (c: char)
    requires 0 <= v < 16
    ensures IsLowerHex(c) && HexValue(c) == v
  {
    if v < 10 then ('0' as int + v) as char else ('a' as int + v - 10) as char
  }

  /** `b.toString(16).padStart(2, '0')`. */
  function HexByte(b: byte): (r: string)
    ensures |r| == 2 && IsLowerHex(r[0]) && IsLowerHex(r[1])
    ensures HexValue(r[0]) * 16 + HexValue(r[1]) == b as int
  {
    [HexDigit(b as int / 16), HexDigit(b as int % 16)]
  }

  predicate IsHexText(s: string) {
    |s| % 2 == 0 && forall i :: 0 <= i < |s| ==> IsLowerHex(s[i])
  }

  /** `Array.from(bytes, HexByte).join('')`. */
  function HexEncode(bs: seq<byte>): (r: string)
    ensures |r| == 2 * |bs| && IsHexText(r)
  {
    if bs == [] then [] else HexEncode(bs[..|bs| - 1]) + HexByte(bs[|bs| - 1])
  }

  /** Reads back the bytes a hex text spells, two digits per byte. */
  function HexDecode(s: string): (r: seq<byte>)
    requires IsHexText(s)
    ensures |r| == |s| / 2
  {
    if s == [] then []
    else
      var init := s[..|s| - 2];
      assert IsHexText(init);
      HexDecode(init) + [(HexValue(s[|s| - 2]) * 16 + HexValue(s[|s| - 1])) as byte]
  }

  /** Hex encoding loses nothing: distinct random bytes give distinct upload ids. */
  lemma {:induction false} HexRoundTrip(bs: seq<byte>)
    ensures HexDecode(HexEncode(bs)) == bs
  {
    if bs != [] {
      var init := bs[..|bs| - 1];
      var s := HexEncode(bs);
      assert s[..|s| - 2] == HexEncode(init);
      HexRoundTrip(init);
      assert bs == init + [bs[|bs| - 1]];
    }
  }

  /** `generateUploadId`, with the bytes `crypto.getRandomValues` produced passed in. */
  method GenerateUploadId(random: seq<byte>) returns (id: string)
    requires |random| == UPLOAD_ID_BYTES
    ensures |id| == 32 && IsHexText(id)
    ensures id == HexEncode(random)
    ensures HexDecode(id) == random
  {
    id := "";
    var i := 0;
    while i < |random|
      invariant 0 <= i <= |random|
      invariant id == HexEncode(random[..i])
    {
      assert random[..i + 1][..i] == random[..i];
      id := id + HexByte(random[i]);
      i := i + 1;
    }
    assert random[..i] == random;
    HexRoundTrip(random);
  }

  // ---------------------------------------------------------------------------
  // The two handlers

  /** `POST /api/chunked-upload/init`: on a valid request, one write of a fresh
      session record under `upload:<id>`; on an invalid one, a 400 and no write. */
  method HandleInit(kv: Namespace, req: InitRequest, random: seq<byte>, now: int)
    returns (reply: Reply<InitBody>)
    requires |random| == UPLOAD_ID_BYTES
    modifies kv
    ensures CheckInit(req).Some? ==>
      reply == Err(400, CheckInit(req).value) &&
      kv.entries == old(kv.entries) && kv.ops == old(kv.ops)
    ensures CheckInit(req).None? ==>
      var id := HexEncode(random);
      reply == Ok(InitBody(id, CHUNK_SIZE)) &&
      kv.entries == old(kv.entries)[UploadKey(id) := TaskRecord(NewTask(req, id, now))] &&
      kv.ops == old(kv.ops) + [PutOp(UploadKey(id))]
  {
    if !PresentText(req.fileName) || !PresentNumber(req.fileSize) || !PresentNumber(req.totalChunks) {
      return Err(400, MissingParameters);
    }
    if req.fileSize.value > MAX_FILE_SIZE {
      return Err(400, FileTooLarge);
    }
    var uploadId := GenerateUploadId(random);
    var normalized := ModeOf(req.storageMode);
    var task := UploadTask(
      uploadId := uploadId,
      fileName := req.fileName.value,
      fileSize := req.fileSize.value,
      fileType := req.fileType,
      totalChunks := req.totalChunks.value,
      storageMode := normalized,
      uploadedChunks := [],
      createdAt := now,
      status := "pending");
    kv.Put(UploadKey(uploadId), TaskRecord(task));
    reply := Ok(InitBody(uploadId, CHUNK_SIZE));
  }

  /** `GET /api/chunked-upload/init`: 400 without an id, 404 for an absent
      session, otherwise the stored record as it is. */
  method HandleStatus(kv: Namespace, uploadId: Option<string>) returns (reply: Reply<UploadTask>)
    ensures !PresentText(uploadId) ==> reply == Err(400, MissingUploadId)
    ensures PresentText(uploadId) && TaskOf(kv.entries, uploadId.value).None? ==>
      reply == Err(404, SessionNotFound)
    ensures PresentText(uploadId) && TaskOf(kv.entries, uploadId.value).Some? ==>
      reply == Ok(TaskOf(kv.entries, uploadId.value).value)
  {
    if !PresentText(uploadId) {
      return Err(400, MissingUploadId);
    }
    var taskData := TaskOf(kv.entries, uploadId.value);
    if taskData.None? {
      return Err(404, SessionNotFound);
    }
    reply := Ok(taskData.value);
  }

  /** A declared size of exactly 100 MiB is accepted; one byte more is refused. */
  lemma SizeCapBoundary(req: InitRequest)
    requires PresentText(req.fileName) && PresentNumber(req.totalChunks)
    ensures req.fileSize == Some(MAX_FILE_SIZE) ==> CheckInit(req) == None
    ensures req.fileSize == Some(MAX_FILE_SIZE + 1) ==> CheckInit(req) == Some(FileTooLarge)
    ensures req.fileSize == Some(0) ==> CheckInit(req) == Some(MissingParameters)
  {
  }
}
