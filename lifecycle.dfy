/** Properties of the chunked-upload endpoints taken together: a session fed
    every chunk once, in any order, reassembles to the original file, and an
    index outside the declared range is caught at reassembly. */
module Lifecycle {
  import opened Common
  import opened Platform
  import opened Telegram
  import opened ChunkIngest
  import opened ChunkComplete

  /** The chunk request carrying payload `payloads[i]` as chunk `i`. */
  function ChunkFor(uploadId: string, i: int, payloads: seq<seq<byte>>): ChunkRequest
    requires 0 <= i < |payloads|
  {
    ChunkRequest(Some(uploadId), Some(i), Some(payloads[i]))
  }

  predicate InRange(order: seq<int>, n: int) {
    forall k :: 0 <= k < |order| ==> 0 <= order[k] < n
  }

  predicate Distinct(order: seq<int>) {
    forall j, k :: 0 <= j < k < |order| ==> order[j] != order[k]
  }

  /** The namespace after the chunk requests for `order[0]`, `order[1]`, ... in turn. */
  function IngestAll(entries: map<Key, Value>, uploadId: string, order: seq<int>,
                     payloads: seq<seq<byte>>, now: int): map<Key, Value>
    requires InRange(order, |payloads|)
  {
    if order == [] then entries
    else
      var before := IngestAll(entries, uploadId, order[..|order| - 1], payloads, now);
      Ingest(before, ChunkFor(uploadId, order[|order| - 1], payloads), now).1
  }

  /** After the requests for distinct indices `order`, the session keeps all its
      other fields, its index list is strictly ascending and holds exactly
      `order`'s indices, and each of them has its own payload stored. */
  lemma IngestAllState(entries: map<Key, Value>, uploadId: string, t: UploadTask,
                       order: seq<int>, payloads: seq<seq<byte>>, now: int)
    requires uploadId != ""
    requires TaskOf(entries, uploadId) == Some(t) && t.uploadedChunks == []
    requires forall i :: BlobOf(entries, uploadId, i).None?
    requires InRange(order, |payloads|) && Distinct(order)
    ensures var after := IngestAll(entries, uploadId, order, payloads, now);
      && TaskOf(after, uploadId).Some?
      && TaskOf(after, uploadId).value == t.(uploadedChunks := TaskOf(after, uploadId).value.uploadedChunks)
      && StrictlyAscending(TaskOf(after, uploadId).value.uploadedChunks)
      && (forall x :: x in TaskOf(after, uploadId).value.uploadedChunks <==> x in order)
      && (forall i :: BlobOf(after, uploadId, i) == if i in order then Some(payloads[i]) else None)
  {
    IngestAllIndexList(entries, uploadId, t, order, payloads, now);
    IngestAllBlobs(entries, uploadId, t, order, payloads, now);
  }

  /** The session part of `IngestAllState`: fields kept, index list strictly
      ascending and holding exactly `order`'s indices. */
  lemma {:induction false} IngestAllIndexList(entries: map<Key, Value>, uploadId: string, t: UploadTask,
                                              order: seq<int>, payloads: seq<seq<byte>>, now: int)
    requires uploadId != ""
    requires TaskOf(entries, uploadId) == Some(t) && t.uploadedChunks == []
    requires InRange(order, |payloads|) && Distinct(order)
    ensures var after := IngestAll(entries, uploadId, order, payloads, now);
      && TaskOf(after, uploadId).Some?
      && TaskOf(after, uploadId).value == t.(uploadedChunks := TaskOf(after, uploadId).value.uploadedChunks)
      && StrictlyAscending(TaskOf(after, uploadId).value.uploadedChunks)
      && (forall x :: x in TaskOf(after, uploadId).value.uploadedChunks <==> x in order)
  {
    if order != [] {
      var init := order[..|order| - 1];
      var idx := order[|order| - 1];
      LastOfDistinct(order, |payloads|);
      IngestAllIndexList(entries, uploadId, t, init, payloads, now);
      var before := IngestAll(entries, uploadId, init, payloads, now);
      NewIndexStep(before, uploadId, idx, payloads[idx], now);
    }
  }

  /** The blob part of `IngestAllState`: each index of `order` has its own
      payload stored, and no other index has a blob. */
  lemma {:induction false} IngestAllBlobs(entries: map<Key, Value>, uploadId: string, t: UploadTask,
                                          order: seq<int>, payloads: seq<seq<byte>>, now: int)
    requires uploadId != ""
    requires TaskOf(entries, uploadId) == Some(t) && t.uploadedChunks == []
    requires forall i :: BlobOf(entries, uploadId, i).None?
    requires InRange(order, |payloads|) && Distinct(order)
    ensures var after := IngestAll(entries, uploadId, order, payloads, now);
      forall i :: BlobOf(after, uploadId, i) == if i in order then Some(payloads[i]) else None
  {
    if order != [] {
      var init := order[..|order| - 1];
      var idx := order[|order| - 1];
      LastOfDistinct(order, |payloads|);
      IngestAllBlobs(entries, uploadId, t, init, payloads, now);
      IngestAllIndexList(entries, uploadId, t, init, payloads, now);
      var before := IngestAll(entries, uploadId, init, payloads, now);
      NewIndexStep(before, uploadId, idx, payloads[idx], now);
    }
  }

  /** A non-empty distinct in-range order is its prefix, itself distinct and in
      range, followed by an index the prefix does not hold. */
  lemma LastOfDistinct(order: seq<int>, n: int)
    requires order != [] && InRange(order, n) && Distinct(order)
    ensures var init, idx := order[..|order| - 1], order[|order| - 1];
      && InRange(init, n) && Distinct(init) && 0 <= idx < n && idx !in init
      && (forall x :: x in order <==> x in init || x == idx)
  {
    var init, idx := order[..|order| - 1], order[|order| - 1];
    assert order == init + [idx];
  }

  /** One chunk request for an index the session lacks: the session gains the
      index, keeps its other fields, and exactly that chunk's blob is added. */
  lemma NewIndexStep(before: map<Key, Value>, uploadId: string, idx: int, payload: seq<byte>, now: int)
    requires uploadId != "" && TaskOf(before, uploadId).Some?
    requires StrictlyAscending(TaskOf(before, uploadId).value.uploadedChunks)
    requires idx !in TaskOf(before, uploadId).value.uploadedChunks
    ensures var after := Ingest(before, ChunkRequest(Some(uploadId), Some(idx), Some(payload)), now).1;
      var task := TaskOf(before, uploadId).value;
      && TaskOf(after, uploadId).Some?
      && TaskOf(after, uploadId).value == task.(uploadedChunks := TaskOf(after, uploadId).value.uploadedChunks)
      && StrictlyAscending(TaskOf(after, uploadId).value.uploadedChunks)
      && (forall x :: x in TaskOf(after, uploadId).value.uploadedChunks <==> x in task.uploadedChunks || x == idx)
      && (forall i :: BlobOf(after, uploadId, i) == if i == idx then Some(payload) else BlobOf(before, uploadId, i))
  {
    var req := ChunkRequest(Some(uploadId), Some(idx), Some(payload));
    var t := TaskOf(before, uploadId).value;
    var u := SortAscending(t.uploadedChunks + [idx]);
    var after := before[ChunkKey(uploadId, idx) := ChunkBlob(payload, now)]
                       [UploadKey(uploadId) := TaskRecord(t.(uploadedChunks := u))];
    assert Ingest(before, req, now).1 == after;
    IngestKeepsIndexListStrict(before, req, now);
    assert TaskOf(after, uploadId) == Some(t.(uploadedChunks := u));
  }

  /** The payloads of chunks 0 .. n - 1, joined, are the first n payloads flattened. */
  lemma {:induction false} JoinedPayloads(entries: map<Key, Value>, uploadId: string, payloads: seq<seq<byte>>, n: int)
    requires 0 <= n <= |payloads|
    requires forall i :: 0 <= i < n ==> BlobOf(entries, uploadId, i) == Some(payloads[i])
    ensures AllChunksPresent(entries, uploadId, n)
    ensures Joined(entries, uploadId, n) == Flatten(payloads[..n])
  {
    if n > 0 {
      JoinedPayloads(entries, uploadId, payloads, n - 1);
      assert payloads[..n][..n - 1] == payloads[..n - 1];
    }
  }

  /** A fresh session of N chunks that receives each chunk once, in any order,
      ends with index list 0, 1, ..., N - 1, passes the count check and the
      reassembly, and reassembles to the payloads joined in index order. */
  lemma AnyOrderReassembles(entries: map<Key, Value>, uploadId: string, t: UploadTask,
                            order: seq<int>, payloads: seq<seq<byte>>, now: int)
    requires uploadId != ""
    requires TaskOf(entries, uploadId) == Some(t) && t.uploadedChunks == [] && t.totalChunks == |payloads|
    requires forall i :: BlobOf(entries, uploadId, i).None?
    requires InRange(order, |payloads|) && Distinct(order) && |order| == |payloads|
    ensures var after := IngestAll(entries, uploadId, order, payloads, now);
      && TaskOf(after, uploadId).Some?
      && TaskOf(after, uploadId).value.uploadedChunks == Upto(|payloads|)
      && |TaskOf(after, uploadId).value.uploadedChunks| == TaskOf(after, uploadId).value.totalChunks
      && AllChunksPresent(after, uploadId, |payloads|)
      && FirstLostFrom(after, uploadId, 0, |payloads|).None?
      && Joined(after, uploadId, |payloads|) == Flatten(payloads)
  {
    var n := |payloads|;
    IngestAllState(entries, uploadId, t, order, payloads, now);
    var after := IngestAll(entries, uploadId, order, payloads, now);
    var u := TaskOf(after, uploadId).value.uploadedChunks;
    forall x | 0 <= x < n
      ensures x in order
    {
      EveryIndexListed(order, n, x);
    }
    StrictRangeIsUpto(u, n);
    JoinedPayloads(after, uploadId, payloads, n);
    assert payloads[..n] == payloads;
  }

  /** End to end, for an R2 session bound to a bucket: once every chunk has
      arrived once, in any order, completion commits the session to the object
      key `r2_<now>_<random>.<ext>` with the payloads joined in index order. */
  lemma AnyOrderCommitsToR2(entries: map<Key, Value>, uploadId: string, t: UploadTask,
                            order: seq<int>, payloads: seq<seq<byte>>, ingestTime: int,
                            chatId: string, first: Attempt, fallback: Attempt, now: int, random: string)
    requires uploadId != ""
    requires TaskOf(entries, uploadId) == Some(t) && t.uploadedChunks == [] && t.totalChunks == |payloads|
    requires t.storageMode == R2
    requires forall i :: BlobOf(entries, uploadId, i).None?
    requires InRange(order, |payloads|) && Distinct(order) && |order| == |payloads|
    ensures var after := IngestAll(entries, uploadId, order, payloads, ingestTime);
      Decide(after, Some(uploadId), true, chatId, first, fallback, now, random)
        == Commit(t.(uploadedChunks := Upto(|payloads|)), ToR2(R2ObjectKey(now, random, Extension(t.fileName))), Flatten(payloads))
  {
    AnyOrderReassembles(entries, uploadId, t, order, payloads, ingestTime);
    IngestAllState(entries, uploadId, t, order, payloads, ingestTime);
  }

  /** N distinct indices in [0, N) list every index of [0, N). */
  lemma {:induction false} EveryIndexListed(order: seq<int>, n: int, x: int)
    requires InRange(order, n) && Distinct(order) && |order| == n && 0 <= x < n
    ensures x in order
  {
    var listed := IndexSet(order);
    var range := Range(n);
    assert listed <= range;
    DistinctCard(order);
    SubsetSameCard(listed, range);
    assert x in range;
  }

  /** The indices of a sequence, as a set. */
  function IndexSet(order: seq<int>): (r: set<int>)
    ensures forall x :: x in r <==> x in order
  {
    if order == [] then {} else IndexSet(order[..|order| - 1]) + {order[|order| - 1]}
  }

  /** The set {0, ..., n - 1}. */
  function Range(n: int): (r: set<int>)
    ensures forall x :: x in r <==> 0 <= x < n
    ensures |r| == if n <= 0 then 0 else n
  {
    if n <= 0 then {} else Range(n - 1) + {n - 1}
  }

  lemma {:induction false} DistinctCard(order: seq<int>)
    requires Distinct(order)
    ensures |IndexSet(order)| == |order|
  {
    if order != [] {
      var init := order[..|order| - 1];
      assert Distinct(init);
      DistinctCard(init);
      assert order[|order| - 1] !in init;
    }
  }

  /** A subset as large as its superset is the whole of it. */
  lemma SubsetSameCard(a: set<int>, b: set<int>)
    requires a <= b && |a| == |b|
    ensures a == b
  {
    assert b == a + (b - a);
    assert |b - a| == 0;
  }

  /** An index outside the declared range slips past the count check: a
      two-chunk session fed chunks 0 and 5 has two indices, but completion
      stops at the missing chunk 1. */
  lemma StrayIndexCaughtAtReassembly(entries: map<Key, Value>, uploadId: string, t: UploadTask,
                                     p0: seq<byte>, p5: seq<byte>, now: int,
                                     r2Bound: bool, chatId: string, first: Attempt, fallback: Attempt, random: string)
    requires uploadId != ""
    requires TaskOf(entries, uploadId) == Some(t) && t.uploadedChunks == [] && t.totalChunks == 2
    requires BlobOf(entries, uploadId, 1).None?
    ensures var e1 := Ingest(entries, ChunkRequest(Some(uploadId), Some(0), Some(p0)), now).1;
      var e2 := Ingest(e1, ChunkRequest(Some(uploadId), Some(5), Some(p5)), now).1;
      && TaskOf(e2, uploadId).Some?
      && TaskOf(e2, uploadId).value.uploadedChunks == [0, 5]
      && Decide(e2, Some(uploadId), r2Bound, chatId, first, fallback, now, random) == Refuse(500, ChunkLost(1))
  {
    var e1 := Ingest(entries, ChunkRequest(Some(uploadId), Some(0), Some(p0)), now).1;
    var e2 := Ingest(e1, ChunkRequest(Some(uploadId), Some(5), Some(p5)), now).1;
    StrayIndexIngested(entries, uploadId, t, p0, p5, now);
    StrayStateIsLost(e2, uploadId, t, p0, r2Bound, chatId, first, fallback, now, random);
  }

  /** The session state `StrayIndexIngested` reaches is refused at reassembly. */
  lemma StrayStateIsLost(e2: map<Key, Value>, uploadId: string, t: UploadTask, p0: seq<byte>,
                         r2Bound: bool, chatId: string, first: Attempt, fallback: Attempt, now: int, random: string)
    requires uploadId != "" && t.totalChunks == 2
    requires TaskOf(e2, uploadId).Some?
    requires TaskOf(e2, uploadId).value == t.(uploadedChunks := [0, 5])
    requires BlobOf(e2, uploadId, 0) == Some(p0)
    requires BlobOf(e2, uploadId, 1).None?
    ensures TaskOf(e2, uploadId).value.uploadedChunks == [0, 5]
    ensures Decide(e2, Some(uploadId), r2Bound, chatId, first, fallback, now, random) == Refuse(500, ChunkLost(1))
  {
    GapIsLost(e2, uploadId, r2Bound, chatId, first, fallback, now, random);
  }

  /** Chunks 0 and 5 of a fresh two-chunk session: the index list is [0, 5],
      chunk 0 is stored and chunk 1 is not. */
  lemma StrayIndexIngested(entries: map<Key, Value>, uploadId: string, t: UploadTask,
                           p0: seq<byte>, p5: seq<byte>, now: int)
    requires uploadId != ""
    requires TaskOf(entries, uploadId) == Some(t) && t.uploadedChunks == [] && t.totalChunks == 2
    requires BlobOf(entries, uploadId, 1).None?
    ensures var e1 := Ingest(entries, ChunkRequest(Some(uploadId), Some(0), Some(p0)), now).1;
      var e2 := Ingest(e1, ChunkRequest(Some(uploadId), Some(5), Some(p5)), now).1;
      && TaskOf(e2, uploadId).Some?
      && TaskOf(e2, uploadId).value == t.(uploadedChunks := [0, 5])
      && BlobOf(e2, uploadId, 0) == Some(p0)
      && BlobOf(e2, uploadId, 1).None?
  {
    var e1 := Ingest(entries, ChunkRequest(Some(uploadId), Some(0), Some(p0)), now).1;
    assert [] + [0] == [0];
    AppendIndex(entries, uploadId, t, 0, p0, now);
    StrayIndexSecond(e1, uploadId, t, p0, p5, now);
  }

  /** The second request of `StrayIndexIngested`, chunk 5 after chunk 0. */
  lemma StrayIndexSecond(e1: map<Key, Value>, uploadId: string, t: UploadTask, p0: seq<byte>, p5: seq<byte>, now: int)
    requires uploadId != "" && TaskOf(e1, uploadId) == Some(t.(uploadedChunks := [0]))
    requires BlobOf(e1, uploadId, 0) == Some(p0) && BlobOf(e1, uploadId, 1).None?
    ensures var e2 := Ingest(e1, ChunkRequest(Some(uploadId), Some(5), Some(p5)), now).1;
      && TaskOf(e2, uploadId) == Some(t.(uploadedChunks := [0, 5]))
      && BlobOf(e2, uploadId, 0) == Some(p0)
      && BlobOf(e2, uploadId, 1).None?
  {
    AppendIndex(e1, uploadId, t.(uploadedChunks := [0]), 5, p5, now);
    assert [0] + [5] == [0, 5];
  }

  /** A chunk index above every listed one is appended to the index list, and
      only that chunk's blob is added. */
  lemma AppendIndex(before: map<Key, Value>, uploadId: string, t: UploadTask, idx: int, payload: seq<byte>, now: int)
    requires uploadId != "" && TaskOf(before, uploadId) == Some(t)
    requires StrictlyAscending(t.uploadedChunks)
    requires forall k :: 0 <= k < |t.uploadedChunks| ==> t.uploadedChunks[k] < idx
    ensures var after := Ingest(before, ChunkRequest(Some(uploadId), Some(idx), Some(payload)), now).1;
      && TaskOf(after, uploadId) == Some(t.(uploadedChunks := t.uploadedChunks + [idx]))
      && (forall i :: BlobOf(after, uploadId, i) == if i == idx then Some(payload) else BlobOf(before, uploadId, i))
  {
    var s := t.uploadedChunks + [idx];
    assert StrictlyAscending(s) by {
      assert forall k :: 0 <= k < |t.uploadedChunks| ==> s[k] == t.uploadedChunks[k];
    }
    NewIndexStep(before, uploadId, idx, payload, now);
    SortAscendingSorted(s);
  }

  /** A two-chunk session listing two indices with chunk 0 stored and chunk 1
      missing is refused at reassembly, naming chunk 1. */
  lemma GapIsLost(e: map<Key, Value>, uploadId: string,
                  r2Bound: bool, chatId: string, first: Attempt, fallback: Attempt, now: int, random: string)
    requires uploadId != "" && TaskOf(e, uploadId).Some?
    requires |TaskOf(e, uploadId).value.uploadedChunks| == 2 && TaskOf(e, uploadId).value.totalChunks == 2
    requires BlobOf(e, uploadId, 0).Some? && BlobOf(e, uploadId, 1).None?
    ensures Decide(e, Some(uploadId), r2Bound, chatId, first, fallback, now, random) == Refuse(500, ChunkLost(1))
  {
    assert FirstLostFrom(e, uploadId, 0, 2) == Some(1);
  }
}
