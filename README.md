# Upload and listing core of a Telegram-backed image host

The image host runs as Cloudflare Pages Functions. Files are stored in one of two places:

- **Telegram**: a file is sent to a chat through the Bot API. The file id in the reply becomes the catalog key.
- **R2**: the object goes to an R2 bucket under `r2_<time>_<random>.<ext>`. The catalog key is `r2:<object key>`.

Either way, the catalog is a KV namespace (`img_url`). One record, with empty value and metadata, per stored file.

This project models five endpoints:

- **`POST /upload`**: the direct upload. It routes the file by MIME type to `sendPhoto`, `sendAudio`, `sendVideo` or `sendDocument`. It retries a refused photo as a document and retries a network error unchanged, up to two retries. It writes `<fileId>.<ext>` to the catalog. With `storageMode=r2`, it stores the file in R2 instead.
- **`POST /api/chunked-upload/init`**: opens a session. The session is the record `upload:<id>`. Its id is 16 random bytes written as 32 hex digits. It also has a 100 MiB size cap. **`GET /api/chunked-upload/init`** returns that record.
- **`POST /api/chunked-upload/chunk`**: stores one chunk as `chunk:<id>:<index>`. It adds the index to the session's index list with `push` and `sort`, and is idempotent by index.
- **`POST /api/chunked-upload/complete`**: runs these steps in order:
  1. Checks the chunk count and reports the missing indices.
  2. Reassembles chunks `0 .. total-1`, stopping at the first lost one.
  3. Uploads the file to R2 or Telegram.
  4. Writes the catalog record.
  5. Deletes the staging keys. A failing delete ends the cleanup silently.
- **`GET /api/manage/list`**: returns one page of the catalog. It:
  - clamps the limit to 1..1000,
  - drops staging keys and records without `fileName` or `TimeStamp`,
  - tags each record with its storage type,
  - optionally filters by storage type.

## Modelling approach

- **Namespace and bucket.** Each is a class whose fields the handlers update: `Platform.Namespace` and `Platform.R2Bucket`.
- **Namespace contents.** A map from `Key` to `Value`. Keys are `UploadKey`, `ChunkKey` and `CatalogKey`.
- **Store log.** The namespace keeps a ghost log of puts and deletes, so contracts can state the order of writes.
- **Handlers.** Each state-changing handler is a method, and the read-only list handler is the function `ManageList.ListResponse`. A method's contract ties the reply and the new state to a pure function of the old state:
  - `ChunkIngest.Ingest` for the chunk endpoint,
  - `ChunkComplete.Decide` for completion,
  - `DirectUpload.TelegramFileId` for the Telegram half of the direct upload.
- **Loops.** Each loop of the source is a method with a `while` loop:
  - `getMissingChunks`,
  - the reassembly loop,
  - `cleanupUploadTask`,
  - `generateUploadId`.
- **Outside world.** The Bot API, the clock, `Math.random` and `crypto.getRandomValues` are parameters. A Bot API call's outcome is an `Attempt`: the request threw, or it was answered with an HTTP status flag and a body.

## Model

| member | source | states |
|---|---|---|
| Common.TruthyNumber | functions/api/chunked-upload/complete.js:99 | `messageId \|\| …` keeps a number exactly when it is present and non-zero |
| Common.PushSortStrict | functions/api/chunked-upload/chunk.js:67-68 | `push` then `sort` on a strictly ascending list lacking `x` gives a strictly ascending list holding exactly the old elements and `x` |
| Common.SortAscending | functions/api/chunked-upload/chunk.js:68 | `sort((a, b) => a - b)` yields an ascending list with the same elements and multiplicities |
| Common.Extension | functions/api/chunked-upload/complete.js:72 | the extension is the text after the last dot, or the whole name when it has no dot, in lower case; it holds no dot and no upper-case letter |
| Platform.ModeOf | functions/api/chunked-upload/init.js:51 | only the exact text "r2" selects R2; anything else, absent included, selects Telegram |
| Platform.BlobType | functions/api/chunked-upload/complete.js:68-69 | the Blob type is the declared type in ASCII lower case when it is all printable ASCII, and empty when it is absent or holds any other character; it never holds an upper-case letter |
| Platform.StripR2Prefix | functions/api/chunked-upload/complete.js:114 | removes a leading `r2:` exactly when there is one, and changes nothing otherwise |
| Platform.R2ObjectKey | functions/api/chunked-upload/complete.js:215-216 | the object key starts with `r2_` and ends with `.<ext>` |
| Telegram.Route | functions/upload.js:44-56 | `sendPhoto` iff `image/`; `sendAudio` iff `audio/` and not image; `sendVideo` iff `video/` and neither; `sendDocument` otherwise; all four cases are exclusive and exhaustive |
| Telegram.BuildTelegramForm | functions/upload.js:39-56 | the form holds `chat_id` and the file under the field of the routed endpoint, and exactly one media field |
| Telegram.BestPhoto | functions/upload.js:111-113 | the `reduce` selects an entry that every later entry fails to exceed; when all sizes are present it is a largest one |
| Telegram.GetFileId | functions/upload.js:106-120 | no id unless `ok` and `result`; an empty photo array throws; otherwise the id is that of the photo `BestPhoto` selects (the largest, ties to the later), else the document's, video's or audio's, in that order; none when the message has no media |
| ChunkInit.CheckInit | functions/api/chunked-upload/init.js:33-45 | 400 "missing parameters" iff name, size or chunk count is falsy; 400 "too large" iff those are present and size > 100 MiB; otherwise accepted |
| ChunkInit.NewTask | functions/api/chunked-upload/init.js:51-62 | the session record copies the request's fields, normalises the storage mode, starts with no chunks and status "pending", and has a non-zero size at most 100 MiB |
| ChunkInit.HexRoundTrip | functions/api/chunked-upload/init.js:129 | decoding the hex text gives back the bytes, so distinct random bytes give distinct ids |
| ChunkInit.GenerateUploadId | functions/api/chunked-upload/init.js:126-130 | 16 bytes give 32 lower-case hex digits that decode to those bytes |
| ChunkInit.HandleInit | functions/api/chunked-upload/init.js:29-74 | an invalid request gets its 400 and writes nothing; a valid one writes exactly the new session record under `upload:<id>` and answers the id and the 5 MiB chunk size |
| ChunkInit.HandleStatus | functions/api/chunked-upload/init.js:89-116 | 400 without an id, 404 without a session, otherwise the stored record unchanged |
| ChunkInit.SizeCapBoundary | functions/api/chunked-upload/init.js:40 | exactly 100 MiB is accepted, one byte more is refused, and size 0 is "missing" |
| ChunkIngest.Ingest | functions/api/chunked-upload/chunk.js:27-77 | 400 for a malformed request and 404 for an unknown session, both leaving the store unchanged; a known index changes nothing; a new one stores the blob and a sorted index list that is the old list plus the index |
| ChunkIngest.HandleChunk | functions/api/chunked-upload/chunk.js:22-80 | reply and new store are those of `Ingest`; a stored chunk is written before the session record, and nothing else is written |
| ChunkIngest.IngestKeepsIndexListStrict | functions/api/chunked-upload/chunk.js:67-68 | a strictly ascending index list stays strictly ascending and gains exactly the new index |
| ChunkIngest.IngestIdempotent | functions/api/chunked-upload/chunk.js:44-52 | repeating a chunk request for the same index, with any payload, changes nothing and reports the same index list |
| ChunkComplete.MissingChunks | functions/api/chunked-upload/complete.js:140-148 | the missing indices are exactly those in [0, total) not uploaded, strictly ascending |
| ChunkComplete.GetMissingChunks | functions/api/chunked-upload/complete.js:140-148 | the loop computes `MissingChunks`: ascending and exactly the absent indices of [0, total) |
| ChunkComplete.CountMatchMeansCoverage | functions/api/chunked-upload/complete.js:42-52 | when the list is strictly ascending and within [0, total), passing the count check means the list is 0..total-1 and nothing is missing |
| ChunkComplete.StrayIndexPassesCountCheck | functions/api/chunked-upload/complete.js:42-47 | with an out-of-range index, the list [0, 5] for 2 chunks passes the count check although chunk 1 is missing |
| ChunkComplete.FirstLostFrom | functions/api/chunked-upload/complete.js:56-63 | none iff every chunk in the range is stored; otherwise the lowest absent index |
| ChunkComplete.Reassemble | functions/api/chunked-upload/complete.js:55-65 | assembles iff all chunks 0..total-1 are stored, to their bytes in index order; otherwise reports the lowest lost chunk |
| ChunkComplete.Settle | functions/api/chunked-upload/complete.js:208 | an accepted answer gives `getFileId`'s id (none when it finds none) and the message id; the empty-photo TypeError becomes a failure |
| ChunkComplete.UploadToTelegram | functions/api/chunked-upload/complete.js:163-212 | one request on the routed endpoint; a second, as a document, exactly when a photo's answer is not accepted; an accepted first answer or an accepted retry settles through `getFileId`; a throw (first or retry) fails with its message; otherwise the first answer's description or "Upload failed" |
| ChunkComplete.TelegramFileKeyAsWritten | functions/api/chunked-upload/complete.js:98 | a null file id becomes the key `null.<ext>` |
| ChunkComplete.NullFileIdBecomesKey | functions/api/chunked-upload/complete.js:98 | an accepted photo answer without media leads the code as written to the catalog key `null.png`; the guarded key refuses it |
| ChunkComplete.TelegramFileKey | functions/api/chunked-upload/complete.js:98 | a key exists iff the file id is present and non-empty, and it is `<fileId>.<ext>` |
| ChunkComplete.ContentTypeOr | functions/api/chunked-upload/complete.js:221 | the content type is never empty and is the file's own type when it has one |
| ChunkComplete.UploadToR2 | functions/api/chunked-upload/complete.js:214-230 | puts exactly one object under `r2_<now>_<random>.<ext>` with the bytes, type, name and upload time, and answers `r2:<object key>` |
| ChunkComplete.CleanupUploadTask | functions/api/chunked-upload/complete.js:150-161 | deletes `upload:<id>` and then chunks 0, 1, … in order up to the first delete that throws, and nothing else |
| ChunkComplete.ChunkedMeta | functions/api/chunked-upload/complete.js:103-117 | the catalog metadata carries name, size, chunk count and time; `r2Key` is present iff the file went to R2, and is its object key; a Telegram record carries the message id, an R2 record none |
| ChunkComplete.Decide | functions/api/chunked-upload/complete.js:25-100 | 400 without id; 404 without session; 400 with the missing list on a count mismatch; otherwise 500 at the lowest lost chunk; with all chunks: an R2 session commits to `r2_<now>_<random>.<ext>` when the bucket is bound and is refused with 500 when not; a Telegram session is refused with the upload's failure text, or commits to `<fileId>.<ext>` with the message id; a commit's bytes are the chunks in index order (no-file-id case: see Left out) |
| ChunkComplete.HandleComplete | functions/api/chunked-upload/complete.js:22-129 | a refusal writes and deletes nothing; a commit puts the R2 object (R2 only), writes one catalog record, then runs the cleanup, and answers `/file/<key>` |
| ChunkComplete.CommitPurgesStaging | functions/api/chunked-upload/complete.js:119-120 | after a full cleanup neither the session record nor any of its chunks 0..total-1 remains, the catalog record is in place, and every other record (other sessions' staging records included) is untouched |
| DirectUpload.DocumentRetryForm | functions/upload.js:137-139 | the retry form carries the old `chat_id` and the photo under `document`, with one media field |
| DirectUpload.SendToTelegram | functions/upload.js:122-155 | an HTTP-OK answer ends the send with its data and message id; a refused photo below two retries is retried as `sendDocument` with the retry form; any other refused answer ends with its description or "Upload to Telegram failed"; a throw below two retries repeats the same request; at most 3 requests, and a final throw is "Network error occurred" |
| DirectUpload.RetriesCarryFile | functions/upload.js:137-151 | every request of a send carries the chat id and the file under the field its endpoint expects |
| DirectUpload.PhotoThenNetworkErrors | functions/upload.js:134-153 | a refused photo followed by two throws makes three requests, the last two as documents, and fails with the network error |
| DirectUpload.DirectMeta | functions/upload.js:72-84 | the catalog metadata of a direct upload carries name, size, time, storage type, R2 key and message id, and no chunk count |
| DirectUpload.TelegramFileId | functions/upload.js:58-69 | the send's failure text, the `reduce` TypeError, or "no file id" give a 500; success iff the answer is OK and has a non-empty file id, which is returned |
| DirectUpload.UploadToR2 | functions/upload.js:158-192 | puts the object with the file's own type, then (when the namespace is bound) writes exactly the `r2:<object key>` record, and answers its `/file/` path |
| DirectUpload.HandleUpload | functions/upload.js:13-93 | no file: 500, nothing written; R2 chosen but unbound: 500; R2: object and record; Telegram: the outcome of `TelegramFileId`, and on success exactly one record `<fileId>.<ext>` |
| DirectUpload.UploadViaTelegram | functions/upload.js:39-93 | an error from the send or file-id step writes nothing; success writes one record `<fileId>.<ext>` with the message id and answers its `/file/` path |
| ManageList.ClampLimit | functions/api/manage/list.js:5-8 | the limit is always in 1..1000: a non-finite parse (`None`) or a non-positive value becomes 100, a finite value above 1000 becomes 1000, otherwise kept |
| ManageList.IsValidKey | functions/api/manage/list.js:17-22 | a listable key has a non-empty name outside `session:`, `chunk:`, `upload:`, `temp:`, a truthy `fileName` and a `TimeStamp` that is present and not null (a predicate; its consequences are stated by `ListResponse` and `StagingNamesHidden`) |
| ManageList.Tag | functions/api/manage/list.js:28-37 | name and expiration are kept, every other metadata field is kept, and `storageType` is "r2" iff the name starts with `r2:`, "telegram" otherwise |
| ManageList.ListResponse | functions/api/manage/list.js:16-50 | cursor and completeness pass through; every listed key is valid, outside the staging prefixes and correctly tagged; every valid key the filter selects is listed, and nothing else is |
| ManageList.ListPreservesOrder | functions/api/manage/list.js:25-45 | the listed keys keep the order of the namespace's page |
| ManageList.StorageFiltersPartition | functions/api/manage/list.js:39-45 | `storage=r2` and `storage=kv` split the unfiltered answer: disjoint, together exactly it, with multiplicities |
| ManageList.StagingNamesHidden | functions/api/manage/list.js:16-19 | `upload:` and `chunk:` records are never listed |
| Lifecycle.NewIndexStep | functions/api/chunked-upload/chunk.js:54-71 | a chunk for a new index adds the index, keeps the session's other fields, and adds only that chunk's blob |
| Lifecycle.IngestAllState | functions/api/chunked-upload/chunk.js:54-71 | after chunk requests for distinct indices, the list is strictly ascending and holds exactly those indices, each with its own payload |
| Lifecycle.AnyOrderReassembles | functions/api/chunked-upload/complete.js:42-65 | a session fed each of its chunks once, in any order, has the list 0..N-1, passes the count check and reassembles to the payloads in index order |
| Lifecycle.AnyOrderCommitsToR2 | functions/api/chunked-upload/complete.js:54-100 | an R2 session with a bound bucket that received each chunk once, in any order, is committed to `r2_<now>_<random>.<ext>` with the payloads joined in index order |
| Lifecycle.StrayIndexCaughtAtReassembly | functions/api/chunked-upload/complete.js:56-63 | chunks 0 and 5 of a two-chunk session pass the count check but completion is refused at lost chunk 1 |
| Lifecycle.GapIsLost | functions/api/chunked-upload/complete.js:56-63 | a session with the right count but chunk 1 absent is refused with 500 naming chunk 1 |

## Left out

- Authentication (`checkAuthentication`, `isAuthRequired`) and the `errorHandling`/`telemetryData` middleware are not part of this model: their files are not part of the core.
- HTTP and JSON plumbing: request parsing, headers and response serialisation. Replies are `Reply` values with the status and a typed error.
- KV expiry (`expirationTtl: 3600`), chunk-blob metadata other than the time, and the 401 replies.
- The `progress` text of the chunk reply (`toFixed(1)`, floating point). The reply carries the count received and the total instead.
- `parseInt` on `chunkIndex` and `limit` is a parameter and `Some(n)` is a finite integer. For `limit`, `None` stands for any non-finite parse (NaN, or ±Infinity from a digit string beyond the largest double). For `chunkIndex`, `None` stands for NaN only. The rounding of large finite parses to doubles is not modelled.
- ManageList.ClampLimit: a `limit` whose digits overflow to Infinity must be passed as `None` (giving 100, as `!Number.isFinite(limit)` does); the model does not derive that from the digit string.
- ChunkIngest.Ingest: a `chunkIndex` whose digits overflow to Infinity passes the NaN check in the source and is stored as JSON `null`; the model takes only finite indices (`Some(n)`) or `None`, so that case is not covered.
- Outer `catch` blocks: a failing KV `get`, `put` or `request.json()`, and R2 `put` failures, are not modelled. They would turn into a 500 with the exception text. The same goes for the R2 error reply of the direct upload.
- The backoff sleep of `sendToTelegram` (`setTimeout`) is left out; only the number and shape of retries are modelled.
- `Blob` type normalisation is modelled only for ASCII (`BlobType`): it lower-cases printable ASCII and drops anything else.
- `Math.random().toString(36).substring(2, 8)` and `Date.now()` are parameters. One clock reading stands for every `Date.now()` of a request.
- Keys are a datatype rather than strings, so a catalog name that spells `upload:<id>` is a different key from the session record. Collisions through the string encoding are not modelled.
- `telegramMessageId` is not a field of the session record. The init endpoint never sets it, so `result.messageId || taskData.telegramMessageId` falls back to undefined.
- Concurrency between requests for the same session: the model runs requests one at a time.
- DirectUpload.SendToTelegram: requires exactly three attempt outcomes, one per possible request. Outcomes that are not used are ignored.
- ChunkComplete.CleanupUploadTask: a delete that throws is assumed to have removed nothing.
- ChunkComplete.Deletes: states only the length of the delete log, because the cleanup's contract gives the log's contents through the key list.
- ChunkInit.SizeCapBoundary: stated on concrete sizes; it follows from `CheckInit`'s contract without further proof.
- ChunkComplete.Decide: refuses with 500 (`FileIdMissing`) when the Telegram upload succeeded without a file id. The code as written commits the key `null.<ext>` (or `.<ext>` for an empty id) instead; that behaviour is modelled only by `TelegramFileKeyAsWritten` and the Findings row.
- ChunkComplete.HandleComplete: for the same input it answers 500 and writes nothing, where the code as written writes the `null.<ext>` catalog record, runs the cleanup and answers 200.
- Common.ToLower: lower-cases ASCII letters only, so `Extension` leaves non-ASCII letters of a file name unchanged where `toLowerCase` would fold them.
- `functions/api/manage/delete/[id].js` is not part of this model.

## Findings

| source | as written | input that shows it | evidently intended | confidence | as-written member | corrected member |
|---|---|---|---|---|---|---|
| functions/api/chunked-upload/complete.js:98 | The catalog key is built as `${result.fileId}.${fileExtension}` with no check that a file id was found. Compare the direct upload at functions/upload.js:67-69. | A `cat.png` upload whose `sendPhoto` answer is OK but carries a message with no photo, document, video or audio. `getFileId` returns null, and the catalog key becomes `null.png`. | Refuse with a 500 when no file id was found, as the direct upload does. | not executed | ChunkComplete.TelegramFileKeyAsWritten (exhibited by ChunkComplete.NullFileIdBecomesKey) | ChunkComplete.TelegramFileKey (used by ChunkComplete.Decide and ChunkComplete.HandleComplete) |
