/** The Worker's bindings as the handlers see them: the KV namespace `img_url`
    (staging records, chunk blobs and the file catalog), the optional R2
    bucket, uploaded files, and the JSON replies the handlers send back. */
module Platform {
  import opened Common

  // ---------------------------------------------------------------------------
  // Uploaded files and storage backends

  /** A `File`/`Blob`: its name, its MIME type (`file.type`) and its bytes. */
  datatype File = File(name: string, mimeType: string, bytes: seq<byte>)

  predicate IsPrintableAscii(c: char) {
    ' ' <= c <= '~'
  }

  /** The `type` a `Blob` or `File` ends up with when constructed with
      `{ type: t }`: empty when `t` is undefined or holds a character outside
      U+0020..U+007E, otherwise `t` in ASCII lower case. */
  function BlobType(t: Option<string>): (r: string)
    ensures forall i :: 0 <= i < |r| ==> !IsUpperAscii(r[i])
    ensures r != "" ==> t.Some? && |r| == |t.value|
    ensures t.Some? && (forall i :: 0 <= i < |t.value| ==> IsPrintableAscii(t.value[i])) ==>
      r == ToLower(t.value)
    ensures t.None? || (exists i :: 0 <= i < |t.value| && !IsPrintableAscii(t.value[i])) ==> r == ""
  {
    if t.Some? && forall i :: 0 <= i < |t.value| ==> IsPrintableAscii(t.value[i]) then ToLower(t.value) else ""
  }

  datatype StorageMode = R2 | Telegram

  /** `mode === 'r2' ? 'r2' : 'telegram'`: only the exact text "r2" selects R2. */
  function ModeOf(mode: Option<string>): (m: StorageMode)
    ensures m == R2 <==> mode == Some("r2")
  {
    if mode == Some("r2") then R2 else Telegram
  }

  /** `r2_${Date.now()}_${random}.${ext}`: the object key both R2 paths generate. */
  function R2ObjectKey(now: int, random: string, ext: string): (r: string)
    ensures StartsWith(r, "r2_")
    ensures |r| > |ext| && r[|r| - |ext| - 1..] == "." + ext
  {
    "r2_" + DecimalString(now) + "_" + random + "." + ext
  }

  /** `fileKey.replace(/^r2:/, '')`. */
  function StripR2Prefix(key: string): (r: string)
    ensures StartsWith(key, "r2:") ==> key == "r2:" + r
    ensures !StartsWith(key, "r2:") ==> r == key
  {
    if StartsWith(key, "r2:") then key[3..] else key
  }

  // ---------------------------------------------------------------------------
  // Records held in the KV namespace

  /** The staging record `upload:<id>` that `init` writes and `chunk` updates. */
  datatype UploadTask = UploadTask(
    uploadId: string,
    fileName: string,
    fileSize: int,
    fileType: Option<string>,
    totalChunks: int,
    storageMode: StorageMode,
    uploadedChunks: seq<int>,
    createdAt: int,
    status: string)

  /** The metadata of a catalog entry. `totalChunks` is present exactly when the
      entry was written by chunked completion (which also sets `chunked: true`). */
  datatype CatalogMeta = CatalogMeta(
    timeStamp: int,
    listType: string,
    labelValue: string,
    liked: bool,
    fileName: string,
    fileSize: int,
    totalChunks: Option<int>,
    storageType: StorageMode,
    r2Key: Option<string>,
    telegramMessageId: Option<int>)

  /** Keys of the namespace: `upload:<id>`, `chunk:<id>:<index>` and catalog names. */
  datatype Key =
    | UploadKey(uploadId: string)
    | ChunkKey(uploadId: string, index: int)
    | CatalogKey(name: string)

  datatype Value =
    | TaskRecord(task: UploadTask)
    | ChunkBlob(bytes: seq<byte>, createdAt: int)
    | CatalogRecord(meta: CatalogMeta)

  /** The key as the namespace spells it. */
  function Name(k: Key): string {
    match k
    case UploadKey(id) => "upload:" + id
    case ChunkKey(id, i) => "chunk:" + id + ":" + DecimalString(i)
    case CatalogKey(name) => name
  }

  /** `get('upload:' + id, { type: 'json' })`, or None when the record is absent. */
  function TaskOf(entries: map<Key, Value>, id: string): Option<UploadTask> {
    var k := UploadKey(id);
    if k in entries && entries[k].TaskRecord? then Some(entries[k].task) else None
  }

  /** `get('chunk:' + id + ':' + i, { type: 'arrayBuffer' })`, or None when absent. */
  function BlobOf(entries: map<Key, Value>, id: string, i: int): Option<seq<byte>> {
    var k := ChunkKey(id, i);
    if k in entries && entries[k].ChunkBlob? then Some(entries[k].bytes) else None
  }

  datatype StoreOp = PutOp(key: Key) | DeleteOp(key: Key)

  /** The KV namespace binding. `ops` records the writes and deletes in the order
      the handlers issue them. */
  class Namespace {
    var entries: map<Key, Value>
    ghost var ops: seq<StoreOp>

    constructor (initial: map<Key, Value>)
      ensures entries == initial && ops == []
    {
      entries := initial;
      ops := [];
    }

    method Put(k: Key, v: Value)
      modifies this
      ensures entries == old(entries)[k := v]
      ensures ops == old(ops) + [PutOp(k)]
    {
      entries := entries[k := v];
      ops := ops + [PutOp(k)];
    }

    method Delete(k: Key)
      modifies this
      ensures entries == old(entries) - {k}
      ensures ops == old(ops) + [DeleteOp(k)]
    {
      entries := entries - {k};
      ops := ops + [DeleteOp(k)];
    }
  }

  /** An object in the R2 bucket: its bytes, `httpMetadata.contentType` and the
      `customMetadata` fields `fileName` and `uploadTime`. */
  datatype R2Object = R2Object(bytes: seq<byte>, contentType: string, fileName: string, uploadTime: string)

  /** The R2 bucket binding `R2_BUCKET`; the handlers see it as possibly unbound (null). */
  class R2Bucket {
    var objects: map<string, R2Object>

    constructor (initial: map<string, R2Object>)
      ensures objects == initial
    {
      objects := initial;
    }

    method Put(key: string, obj: R2Object)
      modifies this
      ensures objects == old(objects)[key := obj]
    {
      objects := objects[key := obj];
    }
  }

  // ---------------------------------------------------------------------------
  // Replies

  datatype ErrorKind =
    | MissingParameters
    | FileTooLarge
    | MissingUploadId
    | SessionNotFound
    | IncompleteUpload(uploaded: int, total: int, missingChunks: seq<int>)
    | ChunkLost(index: int)
    | R2NotConfigured
    | BackendFailed(message: string)
    | NoFileUploaded
    | FileIdMissing

  /** A JSON reply: a 200 body, or an error body with its HTTP status. */
  datatype Reply<T> = Ok(body: T) | Err(status: int, error: ErrorKind)
}
