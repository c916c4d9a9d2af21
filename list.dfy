/** `GET /api/manage/list`: one page of the namespace listing, with staging keys
    and records lacking metadata removed, each record tagged with its storage
    type, and an optional filter by storage type. */
module ManageList {
  import opened Common

  /** A metadata value as stored in the namespace's JSON metadata. */
  datatype Json = JNull | JBool(b: bool) | JNum(n: int) | JStr(s: string)

  /** One listed key: its name, expiration and metadata object (absent when none was stored). */
  datatype ListedKey = ListedKey(name: Option<string>, expiration: Option<int>, metadata: Option<map<string, Json>>)

  /** The page `img_url.list` returns; the handler replaces only `keys`. */
  datatype ListResult = ListResult(keys: seq<ListedKey>, listComplete: bool, cursor: Option<string>)

  /** The limit passed to `list`: `parseInt(raw || "100", 10)`, with `None` for
      NaN, replaced by 100 when not a positive number and capped at 1000. */
  function ClampLimit(parsed: Option<int>): (limit: int)
    ensures 1 <= limit <= 1000
    ensures parsed.None? || parsed.value <= 0 ==> limit == 100
    ensures parsed.Some? && 1 <= parsed.value <= 1000 ==> limit == parsed.value
    ensures parsed.Some? && parsed.value > 1000 ==> limit == 1000
  {
    var limit := if parsed.None? || parsed.value <= 0 then 100 else parsed.value;
    if limit > 1000 then 1000 else limit
  }

  /** JavaScript truthiness of a metadata value. */
  predicate Truthy(v: Json) {
    match v
    case JNull => false
    case JBool(b) => b
    case JNum(n) => n != 0
    case JStr(s) => s != ""
  }

  /** `key.metadata || {}`. */
  function MetaOf(k: ListedKey): map<string, Json> {
    if k.metadata.Some? then k.metadata.value else map[]
  }

  /** Names the handler never lists: session caches, chunk blobs, upload sessions, temporaries. */
  predicate IsStagingName(name: string) {
    StartsWith(name, "session:") || StartsWith(name, "chunk:") || StartsWith(name, "upload:") || StartsWith(name, "temp:")
  }

  /** `isValidKey`: a non-empty name outside the staging prefixes, a truthy
      `fileName` and a `TimeStamp` that is neither undefined nor null. */
  predicate IsValidKey(k: ListedKey) {
    && PresentText(k.name)
    && !IsStagingName(k.name.value)
    && "fileName" in MetaOf(k) && Truthy(MetaOf(k)["fileName"])
    && "TimeStamp" in MetaOf(k) && MetaOf(k)["TimeStamp"] != JNull
  }

  predicate IsR2Name(k: ListedKey) {
    k.name.Some? && StartsWith(k.name.value, "r2:")
  }

  /** The storage type tag: `'r2'` for an `r2:` name, `'telegram'` otherwise. */
  function StorageTag(k: ListedKey): Json {
    if IsR2Name(k) then JStr("r2") else JStr("telegram")
  }

  /** `{ ...key, metadata: { ...key.metadata, storageType } }`. */
  function Tag(k: ListedKey): (r: ListedKey)
    ensures r.name == k.name && r.expiration == k.expiration && r.metadata.Some?
    ensures "storageType" in r.metadata.value
    ensures r.metadata.value["storageType"] == JStr("r2") <==> IsR2Name(k)
    ensures r.metadata.value["storageType"] == JStr("telegram") <==> !IsR2Name(k)
    ensures forall f :: f in MetaOf(k) && f != "storageType" ==>
      f in r.metadata.value && r.metadata.value[f] == MetaOf(k)[f]
    ensures forall f :: f in r.metadata.value ==> f in MetaOf(k) || f == "storageType"
  {
    k.(metadata := Some(MetaOf(k)["storageType" := StorageTag(k)]))
  }

  // ---------------------------------------------------------------------------
  // Order-preserving selection

  /** `a` can be obtained from `b` by deleting elements. */
  predicate SubsequenceOf<T(==)>(a: seq<T>, b: seq<T>)
    decreases |b|
  {
    if a == [] then true
    else if b == [] then false
    else (a[0] == b[0] && SubsequenceOf(a[1..], b[1..])) || SubsequenceOf(a, b[1..])
  }

  /** `Array.prototype.filter`. */
  function Filter<T(==,!new)>(s: seq<T>, p: T -> bool): (r: seq<T>)
    ensures forall x :: x in r <==> x in s && p(x)
    ensures |r| <= |s|
  {
    if s == [] then []
    else
      var rest := Filter(s[1..], p);
      assert forall x :: x in s <==> x == s[0] || x in s[1..];
      if p(s[0]) then [s[0]] + rest else rest
  }

  /** `Array.prototype.map`. */
  function Map<T, U>(s: seq<T>, f: T -> U): (r: seq<U>)
    ensures |r| == |s|
    ensures forall i :: 0 <= i < |s| ==> r[i] == f(s[i])
  {
    if s == [] then [] else [f(s[0])] + Map(s[1..], f)
  }

  lemma {:induction false} FilterIsSubsequence<T(!new)>(s: seq<T>, p: T -> bool)
    ensures SubsequenceOf(Filter(s, p), s)
  {
    if s != [] {
      FilterIsSubsequence(s[1..], p);
      var rest := Filter(s[1..], p);
      if p(s[0]) {
        assert ([s[0]] + rest)[1..] == rest;
      } else if rest != [] {
        assert SubsequenceOf(rest, s[1..]);
      }
    }
  }

  lemma {:induction false} SubsequenceOfMap<T, U>(a: seq<T>, b: seq<T>, f: T -> U)
    requires SubsequenceOf(a, b)
    ensures SubsequenceOf(Map(a, f), Map(b, f))
    decreases |b|
  {
    if a != [] {
      assert Map(b, f)[1..] == Map(b[1..], f);
      if a[0] == b[0] && SubsequenceOf(a[1..], b[1..]) {
        SubsequenceOfMap(a[1..], b[1..], f);
        assert Map(a, f)[1..] == Map(a[1..], f);
      } else {
        SubsequenceOfMap(a, b[1..], f);
      }
    }
  }

  lemma {:induction false} SubsequenceTrans<T>(a: seq<T>, b: seq<T>, c: seq<T>)
    requires SubsequenceOf(a, b) && SubsequenceOf(b, c)
    ensures SubsequenceOf(a, c)
    decreases |c|
  {
    if a != [] && c != [] {
      if b[0] == c[0] && SubsequenceOf(b[1..], c[1..]) {
        if a[0] == b[0] && SubsequenceOf(a[1..], b[1..]) {
          SubsequenceTrans(a[1..], b[1..], c[1..]);
        } else {
          SubsequenceTrans(a, b[1..], c[1..]);
        }
      } else {
        SubsequenceTrans(a, b, c[1..]);
      }
    }
  }

  // ---------------------------------------------------------------------------
  // The handler

  /** Which tagged keys the `storage` parameter keeps (`|| undefined` makes "" absent). */
  predicate Selected(storage: Option<string>, k: ListedKey) {
    if storage == Some("r2") then IsR2Name(k)
    else if storage == Some("kv") || storage == Some("telegram") then !IsR2Name(k)
    else true
  }

  /** The page the handler answers for the page `value` and the `storage` parameter. */
  function ListResponse(value: ListResult, storage: Option<string>): (r: ListResult)
    ensures r.listComplete == value.listComplete && r.cursor == value.cursor
    ensures forall k :: k in r.keys ==>
      k.name.Some? && !IsStagingName(k.name.value) && k.metadata.Some? && "storageType" in k.metadata.value &&
      (k.metadata.value["storageType"] == JStr("r2") <==> StartsWith(k.name.value, "r2:"))
    ensures forall k :: k in value.keys && IsValidKey(k) && Selected(storage, k) ==> Tag(k) in r.keys
    ensures forall k :: k in r.keys ==> exists j :: j in value.keys && IsValidKey(j) && Selected(storage, j) && k == Tag(j)
  {
    var sanitizedKeys := Filter(value.keys, IsValidKey);
    var keysWithStorageType := Map(sanitizedKeys, Tag);
    var filteredKeys := Filter(keysWithStorageType, k => Selected(storage, k));
    forall k | k in filteredKeys
      ensures exists j :: j in value.keys && IsValidKey(j) && Selected(storage, j) && k == Tag(j)
    {
      var i :| 0 <= i < |keysWithStorageType| && keysWithStorageType[i] == k;
      assert sanitizedKeys[i] in sanitizedKeys;
    }
    forall j | j in value.keys && IsValidKey(j) && Selected(storage, j)
      ensures Tag(j) in filteredKeys
    {
      var i :| 0 <= i < |sanitizedKeys| && sanitizedKeys[i] == j;
      assert keysWithStorageType[i] == Tag(j);
    }
    value.(keys := filteredKeys)
  }

  /** The listed keys keep the order of the namespace's page. */
  lemma ListPreservesOrder(value: ListResult, storage: Option<string>)
    ensures SubsequenceOf(ListResponse(value, storage).keys, Map(value.keys, Tag))
  {
    var sanitizedKeys := Filter(value.keys, IsValidKey);
    var keysWithStorageType := Map(sanitizedKeys, Tag);
    FilterIsSubsequence(value.keys, IsValidKey);
    SubsequenceOfMap(sanitizedKeys, value.keys, Tag);
    FilterIsSubsequence(keysWithStorageType, k => Selected(storage, k));
    SubsequenceTrans(ListResponse(value, storage).keys, keysWithStorageType, Map(value.keys, Tag));
  }

  /** `storage=r2` and `storage=kv` split the unfiltered answer: every key is in
      exactly one of the two, and nothing else is. */
  lemma StorageFiltersPartition(value: ListResult)
    ensures forall k :: k in ListResponse(value, None).keys <==>
      k in ListResponse(value, Some("r2")).keys || k in ListResponse(value, Some("kv")).keys
    ensures forall k :: !(k in ListResponse(value, Some("r2")).keys && k in ListResponse(value, Some("kv")).keys)
    ensures multiset(ListResponse(value, Some("r2")).keys) + multiset(ListResponse(value, Some("kv")).keys)
      == multiset(ListResponse(value, None).keys)
  {
    var tagged := Map(Filter(value.keys, IsValidKey), Tag);
    var all, r2, kv := ListResponse(value, None).keys, ListResponse(value, Some("r2")).keys, ListResponse(value, Some("kv")).keys;
    FilterSame(tagged, k => Selected(None, k), k => true);
    FilterAll(tagged);
    FilterSame(tagged, k => Selected(Some("r2"), k), IsR2Name);
    var notR2 := k => !IsR2Name(k);
    FilterSame(tagged, k => Selected(Some("kv"), k), notR2);
    SplitCounts(tagged, IsR2Name, notR2);
    assert all == tagged;
    assert r2 == Filter(tagged, IsR2Name);
    assert kv == Filter(tagged, notR2);
    forall k
      ensures k in r2 <==> k in tagged && IsR2Name(k)
      ensures k in kv <==> k in tagged && !IsR2Name(k)
    {
    }
  }

  /** Filters by predicates that agree everywhere agree. */
  lemma {:induction false} FilterSame<T(!new)>(s: seq<T>, p: T -> bool, q: T -> bool)
    requires forall x :: p(x) == q(x)
    ensures Filter(s, p) == Filter(s, q)
  {
    if s != [] {
      FilterSame(s[1..], p, q);
    }
  }

  lemma {:induction false} FilterAll<T(!new)>(s: seq<T>)
    ensures Filter(s, x => true) == s
  {
    if s != [] {
      FilterAll(s[1..]);
    }
  }

  /** Splitting a sequence by a predicate and its negation loses and duplicates nothing. */
  lemma {:induction false} SplitCounts<T(!new)>(s: seq<T>, p: T -> bool, q: T -> bool)
    requires forall x :: q(x) == !p(x)
    ensures multiset(Filter(s, p)) + multiset(Filter(s, q)) == multiset(s)
  {
    if s != [] {
      SplitCounts(s[1..], p, q);
      var x, fp, fq := s[0], Filter(s[1..], p), Filter(s[1..], q);
      assert s == [x] + s[1..];
      assert multiset(s) == multiset{x} + multiset(s[1..]);
      if p(x) {
        assert Filter(s, p) == [x] + fp && Filter(s, q) == fq;
        assert multiset([x] + fp) == multiset{x} + multiset(fp);
      } else {
        assert Filter(s, p) == fp && Filter(s, q) == [x] + fq;
        assert multiset([x] + fq) == multiset{x} + multiset(fq);
      }
    }
  }

  /** The staging records the upload endpoints write are never listed: their
      names carry the `upload:` and `chunk:` prefixes. */
  lemma StagingNamesHidden(uploadId: string, index: string, meta: map<string, Json>)
    ensures !IsValidKey(ListedKey(Some("upload:" + uploadId), None, Some(meta)))
    ensures !IsValidKey(ListedKey(Some("chunk:" + uploadId + ":" + index), None, Some(meta)))
  {
    assert StartsWith("upload:" + uploadId, "upload:");
    assert ("chunk:" + uploadId + ":" + index)[..6] == "chunk:";
  }
}
