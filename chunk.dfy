/** `POST /api/chunked-upload/chunk` stores one chunk of a session, idempotently
    by index: the first payload received for an index is the one kept. */
module ChunkIngest {
  import opened Common
  import opened Platform

  /** The form fields of a chunk request: `uploadId`, the parsed `chunkIndex`
      (None when `parseInt` gives NaN) and the `chunk` bytes. */
  datatype ChunkRequest = ChunkRequest(uploadId: Option<string>, chunkIndex: Option<int>, chunk: Option<seq<byte>>)

  /** A success body: the index was already there, or it was stored now
      (with the progress as received / total). */
  datatype ChunkBody =
    | AlreadyStored(uploadedChunks: seq<int>)
    | Stored(chunkIndex: int, uploadedChunks: seq<int>, received: int, total: int)

  predicate WellFormed(req: ChunkRequest) {
    PresentText(req.uploadId) && req.chunkIndex.Some? && req.chunk.Some?
  }

  /** The reply and the new namespace contents of one chunk request. There is no
      range check: any integer index is recorded. */
  function Ingest(entries: map<Key, Value>, req: ChunkRequest, now: int): (out: (Reply<ChunkBody>, map<Key, Value>))
    ensures !WellFormed(req) ==> out == (Err(400, MissingParameters), entries)
    ensures WellFormed(req) && TaskOf(entries, req.uploadId.value).None? ==>
      out == (Err(404, SessionNotFound), entries)
    ensures WellFormed(req) && TaskOf(entries, req.uploadId.value).Some? ==>
      var id, idx, t := req.uploadId.value, req.chunkIndex.value, TaskOf(entries, req.uploadId.value).value;
      if idx in t.uploadedChunks then
        out == (Ok(AlreadyStored(t.uploadedChunks)), entries)
      else
        exists u: seq<int> ::
          && Ascending(u)
          && multiset(u) == multiset(t.uploadedChunks) + multiset{idx}
          && out.0 == Ok(Stored(idx, u, |u|, t.totalChunks))
          && out.1 == entries[ChunkKey(id, idx) := ChunkBlob(req.chunk.value, now)]
                             [UploadKey(id) := TaskRecord(t.(uploadedChunks := u))]
  {
    if !WellFormed(req) then (Err(400, MissingParameters), entries)
    else
      var id, idx := req.uploadId.value, req.chunkIndex.value;
      match TaskOf(entries, id)
      case None => (Err(404, SessionNotFound), entries)
      case Some(t) =>
        if idx in t.uploadedChunks then (Ok(AlreadyStored(t.uploadedChunks)), entries)
        else
          var u := SortAscending(t.uploadedChunks + [idx]);
          assert multiset(t.uploadedChunks + [idx]) == multiset(t.uploadedChunks) + multiset{idx};
          (Ok(Stored(idx, u, |u|, t.totalChunks)),
           entries[ChunkKey(id, idx) := ChunkBlob(req.chunk.value, now)]
                  [UploadKey(id) := TaskRecord(t.(uploadedChunks := u))])
  }

  /** The handler: each check in turn, then the chunk blob is written before the
      session record, whose index list gains the index by `push` and `sort`. */
  method HandleChunk(kv: Namespace, req: ChunkRequest, now: int) returns (reply: Reply<ChunkBody>)
    modifies kv
    ensures (reply, kv.entries) == Ingest(old(kv.entries), req, now)
    ensures reply.Ok? && reply.body.Stored? ==>
      kv.ops == old(kv.ops) + [PutOp(ChunkKey(req.uploadId.value, req.chunkIndex.value)),
                               PutOp(UploadKey(req.uploadId.value))]
    ensures !(reply.Ok? && reply.body.Stored?) ==> kv.ops == old(kv.ops)
  {
    if !PresentText(req.uploadId) || req.chunkIndex.None? || req.chunk.None? {
      return Err(400, MissingParameters);
    }
    var uploadId, chunkIndex := req.uploadId.value, req.chunkIndex.value;
    var taskData := TaskOf(kv.entries, uploadId);
    if taskData.None? {
      return Err(404, SessionNotFound);
    }
    var task := taskData.value;
    if chunkIndex in task.uploadedChunks {
      return Ok(AlreadyStored(task.uploadedChunks));
    }
    kv.Put(ChunkKey(uploadId, chunkIndex), ChunkBlob(req.chunk.value, now));
    var uploaded := task.uploadedChunks;
    uploaded := uploaded + [chunkIndex];
    uploaded := SortAscending(uploaded);
    task := task.(uploadedChunks := uploaded);
    kv.Put(UploadKey(uploadId), TaskRecord(task));
    reply := Ok(Stored(chunkIndex, uploaded, |uploaded|, task.totalChunks));
  }

  /** A session whose index list is strictly ascending keeps it so, and the list
      gains exactly the new index. */
  lemma IngestKeepsIndexListStrict(entries: map<Key, Value>, req: ChunkRequest, now: int)
    requires WellFormed(req) && TaskOf(entries, req.uploadId.value).Some?
    requires StrictlyAscending(TaskOf(entries, req.uploadId.value).value.uploadedChunks)
    ensures var after := TaskOf(Ingest(entries, req, now).1, req.uploadId.value);
      var before := TaskOf(entries, req.uploadId.value).value.uploadedChunks;
      && after.Some?
      && StrictlyAscending(after.value.uploadedChunks)
      && (forall x :: x in after.value.uploadedChunks <==> x in before || x == req.chunkIndex.value)
  {
    var t := TaskOf(entries, req.uploadId.value).value;
    var idx := req.chunkIndex.value;
    if idx !in t.uploadedChunks {
      PushSortStrict(t.uploadedChunks, idx);
    }
  }

  /** Ingest is idempotent by index: a second request for the same index, with
      any payload, changes nothing and reports the list the first one left. */
  lemma IngestIdempotent(entries: map<Key, Value>, first: ChunkRequest, again: ChunkRequest, now1: int, now2: int)
    requires WellFormed(first) && WellFormed(again)
    requires again.uploadId == first.uploadId && again.chunkIndex == first.chunkIndex
    ensures var (r1, e1) := Ingest(entries, first, now1);
      var (r2, e2) := Ingest(e1, again, now2);
      && e2 == e1
      && (r1.Ok? ==> r2.Ok? && r2.body.uploadedChunks == r1.body.uploadedChunks)
      && (r1.Err? ==> r2 == r1)
  {
    var id, idx := first.uploadId.value, first.chunkIndex.value;
    var (r1, e1) := Ingest(entries, first, now1);
    if TaskOf(entries, id).Some? && idx !in TaskOf(entries, id).value.uploadedChunks {
      var u :| && multiset(u) == multiset(TaskOf(entries, id).value.uploadedChunks) + multiset{idx}
               && r1 == Ok(Stored(idx, u, |u|, TaskOf(entries, id).value.totalChunks))
               && e1 == entries[ChunkKey(id, idx) := ChunkBlob(first.chunk.value, now1)]
                               [UploadKey(id) := TaskRecord(TaskOf(entries, id).value.(uploadedChunks := u))];
      assert TaskOf(e1, id).value.uploadedChunks == u;
      assert idx in multiset(u);
    }
  }
}
