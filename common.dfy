/** Vocabulary shared by every handler: optional values, bytes, the string
    operations the handlers apply to names and MIME types, and ascending
    integer sequences (the chunk-index list). */
module Common {

  datatype Option<+T> = None | Some(value: T)

  newtype byte = x: int | 0 <= x < 256

  /** JavaScript truthiness of an optional text field: null, undefined and "" are falsy. */
  predicate PresentText(s: Option<string>) {
    s.Some? && s.value != ""
  }

  /** JavaScript truthiness of an optional number: undefined and 0 are falsy. */
  predicate PresentNumber(n: Option<int>) {
    n.Some? && n.value != 0
  }

  /** `n || undefined` for an optional number: 0 becomes absent. */
  function TruthyNumber(n: Option<int>): (r: Option<int>)
    ensures r.Some? <==> PresentNumber(n)
    ensures r.Some? ==> r == n
  {
    if PresentNumber(n) then n else None
  }

  predicate StartsWith(s: string, prefix: string) {
    |prefix| <= |s| && s[..|prefix|] == prefix
  }

  // ---------------------------------------------------------------------------
  // Lower-casing and file extensions

  predicate IsUpperAscii(c: char) {
    'A' <= c <= 'Z'
  }

  function LowerChar(c: char): char {
    if IsUpperAscii(c) then (c as int + 32) as char else c
  }

  /** `String.prototype.toLowerCase`, restricted to ASCII letters. */
  function ToLower(s: string): (r: string)
    ensures |r| == |s|
    ensures forall i :: 0 <= i < |s| ==> r[i] == LowerChar(s[i])
  {
    if s == [] then [] else [LowerChar(s[0])] + ToLower(s[1..])
  }

  /** The last piece of `s.split('.')`: the text after the last dot, or all of
      `s` when it holds no dot. */
  function AfterLastDot(s: string): (r: string)
    ensures |r| <= |s| && r == s[|s| - |r|..]
    ensures '.' !in r
    ensures |r| < |s| ==> s[|s| - |r| - 1] == '.'
  {
    if s == [] then []
    else if s[|s| - 1] == '.' then []
    else
      var r := AfterLastDot(s[..|s| - 1]);
      assert s[..|s| - 1][|s| - 1 - |r|..] + [s[|s| - 1]] == s[|s| - 1 - |r|..];
      r + [s[|s| - 1]]
  }

  /** `fileName.split('.').pop().toLowerCase()`. */
  function Extension(fileName: string): (r: string)
    ensures '.' !in r
    ensures forall i :: 0 <= i < |r| ==> !IsUpperAscii(r[i])
    ensures '.' !in fileName ==> r == ToLower(fileName)
    ensures '.' in fileName ==> |r| < |fileName|
    ensures |r| < |fileName| ==> fileName[|fileName| - |r| - 1] == '.' && r == ToLower(fileName[|fileName| - |r|..])
  {
    ToLower(AfterLastDot(fileName))
  }

  // ---------------------------------------------------------------------------
  // Decimal rendering of integers, as template literals render numbers

  function DigitChar(d: int): char
    requires 0 <= d < 10
  {
    ('0' as int + d) as char
  }

  function Digits(n: nat): (r: string)
    ensures r != []
    ensures forall i :: 0 <= i < |r| ==> '0' <= r[i] <= '9'
  {
    if n < 10 then [DigitChar(n)] else Digits(n / 10) + [DigitChar(n % 10)]
  }

  function DecimalString(n: int): string {
    if n < 0 then "-" + Digits(-n) else Digits(n)
  }

  // ---------------------------------------------------------------------------
  // Ascending sequences of chunk indices

  predicate Ascending(s: seq<int>) {
    forall i, j :: 0 <= i < j < |s| ==> s[i] <= s[j]
  }

  predicate StrictlyAscending(s: seq<int>) {
    forall i, j :: 0 <= i < j < |s| ==> s[i] < s[j]
  }

  /** The sequence 0, 1, ..., n - 1 (empty when n <= 0). */
  function Upto(n: int): (r: seq<int>)
    ensures |r| == if n <= 0 then 0 else n
    ensures forall i :: 0 <= i < |r| ==> r[i] == i
  {
    if n <= 0 then [] else Upto(n - 1) + [n - 1]
  }

  function Insert(x: int, s: seq<int>): (r: seq<int>)
    requires Ascending(s)
    ensures Ascending(r)
    ensures multiset(r) == multiset(s) + multiset{x}
    ensures forall k :: 0 <= k < |r| ==> r[k] == x || r[k] in s
  {
    if s == [] then [x]
    else if x <= s[0] then [x] + s
    else
      var rest := Insert(x, s[1..]);
      assert s == [s[0]] + s[1..];
      [s[0]] + rest
  }

  /** `Array.prototype.sort((a, b) => a - b)`: numeric ascending order. */
  function SortAscending(s: seq<int>): (r: seq<int>)
    ensures Ascending(r)
    ensures multiset(r) == multiset(s)
  {
    if s == [] then []
    else
      assert s == s[..|s| - 1] + [s[|s| - 1]];
      Insert(s[|s| - 1], SortAscending(s[..|s| - 1]))
  }

  /** Inserting a new element into a strictly ascending sequence keeps it strictly ascending. */
  lemma {:induction false} InsertKeepsStrict(x: int, s: seq<int>)
    requires StrictlyAscending(s) && x !in s
    ensures StrictlyAscending(Insert(x, s))
  {
    if s != [] && x > s[0] {
      var tail := s[1..];
      assert StrictlyAscending(tail);
      InsertKeepsStrict(x, tail);
      var rest := Insert(x, tail);
      forall k | 0 <= k < |rest|
        ensures s[0] < rest[k]
      {
        if rest[k] != x {
          var q :| 0 <= q < |tail| && tail[q] == rest[k];
          assert s[q + 1] == rest[k];
        }
      }
      PrependStrict(s[0], rest);
      assert [s[0]] + rest == Insert(x, s);
    }
  }

  /** A head below every element of a strictly ascending sequence keeps it strictly ascending. */
  lemma PrependStrict(h: int, rest: seq<int>)
    requires StrictlyAscending(rest)
    requires forall k :: 0 <= k < |rest| ==> h < rest[k]
    ensures StrictlyAscending([h] + rest)
  {
    var r := [h] + rest;
    forall i, j | 0 <= i < j < |r|
      ensures r[i] < r[j]
    {
      if i == 0 {
        assert r[j] == rest[j - 1];
      } else {
        assert r[i] == rest[i - 1] && r[j] == rest[j - 1];
      }
    }
  }


  /** Sorting a sequence that is already strictly ascending changes nothing. */
  lemma {:induction false} SortAscendingSorted(s: seq<int>)
    requires StrictlyAscending(s)
    ensures SortAscending(s) == s
  {
    if s != [] {
      var init := s[..|s| - 1];
      SortAscendingSorted(init);
      assert SortAscending(s) == Insert(s[|s| - 1], init);
      InsertAtEnd(s[|s| - 1], init);
      assert init + [s[|s| - 1]] == s;
    }
  }

  lemma {:induction false} InsertAtEnd(x: int, s: seq<int>)
    requires Ascending(s)
    requires forall k :: 0 <= k < |s| ==> s[k] < x
    ensures Insert(x, s) == s + [x]
  {
    if s != [] {
      InsertAtEnd(x, s[1..]);
      assert [s[0]] + (s[1..] + [x]) == s + [x];
    }
  }

  /** A strictly ascending sequence whose elements are exactly 0 .. n - 1 is 0, 1, ..., n - 1. */
  lemma {:induction false} StrictRangeIsUpto(s: seq<int>, n: int)
    requires StrictlyAscending(s)
    requires forall x :: x in s <==> 0 <= x < n
    ensures s == Upto(n)
    decreases |s|
  {
    if s == [] {
      assert (0 in s) <==> 0 < n;
    } else {
      var last := s[|s| - 1];
      assert last in s;
      assert n - 1 in s;
      var p :| 0 <= p < |s| && s[p] == n - 1;
      assert s[p] <= last;
      assert last == n - 1;
      var init := s[..|s| - 1];
      forall x | x in init
        ensures 0 <= x < n - 1
      {
        var q :| 0 <= q < |init| && init[q] == x;
        assert s[q] == x && s[q] in s;
        assert s[q] < s[|s| - 1];
      }
      forall x | 0 <= x < n - 1
        ensures x in init
      {
        assert x in s;
        var q :| 0 <= q < |s| && s[q] == x;
        assert init[q] == x;
      }
      StrictRangeIsUpto(init, n - 1);
      assert s == init + [last];
    }
  }

  /** `push` then `sort` on a strictly ascending list that lacks `x`: the result is
      strictly ascending and holds exactly the old elements and `x`. */
  lemma PushSortStrict(s: seq<int>, x: int)
    requires StrictlyAscending(s) && x !in s
    ensures StrictlyAscending(SortAscending(s + [x]))
    ensures forall y :: y in SortAscending(s + [x]) <==> y in s || y == x
  {
    SortAscendingSorted(s);
    assert (s + [x])[..|s|] == s;
    assert SortAscending(s + [x]) == Insert(x, s);
    InsertKeepsStrict(x, s);
    var u := Insert(x, s);
    forall y
      ensures y in u <==> y in s || y == x
    {
      assert y in u <==> y in multiset(u);
      assert y in s <==> y in multiset(s);
    }
  }
}
