/** The two query clauses the repositories share: `ORDER BY <column> DESC` and
    GORM's `Offset(o).Limit(l)` window. */
module Ordering {
  import opened Wrappers

  predicate SortedDesc<T>(s: seq<T>, key: T -> int) {
    forall i, j :: 0 <= i < j < |s| ==> key(s[i]) >= key(s[j])
  }

  /** Places `x` before the first element whose key is not larger than its own. */
  function InsertDesc<T>(x: T, s: seq<T>, key: T -> int): (r: seq<T>)
    requires SortedDesc(s, key)
    ensures |r| == |s| + 1 && (r[0] == x || (|s| > 0 && r[0] == s[0]))
    ensures SortedDesc(r, key)
    ensures multiset(r) == multiset(s) + multiset{x}
  {
    if s == [] || key(x) >= key(s[0]) then
      [x] + s
    else
      var rest := InsertDesc(x, s[1..], key);
      assert s == [s[0]] + s[1..];
      assert |s| > 1 ==> key(s[0]) >= key(s[1]);
      [s[0]] + rest
  }

  /** `ORDER BY key DESC`: a permutation of the rows, largest key first. Rows with
      equal keys keep their stored order, which is one of the orders the database
      is free to return. */
  function SortDesc<T>(s: seq<T>, key: T -> int): (r: seq<T>)
    ensures SortedDesc(r, key)
    ensures multiset(r) == multiset(s)
    ensures |r| == |s|
  {
    if s == [] then
      []
    else
      assert s == [s[0]] + s[1..];
      InsertDesc(s[0], SortDesc(s[1..], key), key)
  }

  /** How many rows an offset skips: none unless it is positive. */
  function Skipped(n: nat, offset: int): (k: nat)
    ensures k <= n
  {
    if offset <= 0 then 0 else Min(offset, n)
  }

  /** `Offset(offset).Limit(limit)`: a positive offset skips that many rows, a
      positive limit keeps at most that many; zero or a negative value adds no
      clause, so `Limit(0)` means "no limit". */
  function Window<T>(s: seq<T>, offset: int, limit: int): (r: seq<T>)
    ensures |r| == if limit > 0 then Min(limit, |s| - Skipped(|s|, offset)) else |s| - Skipped(|s|, offset)
    ensures forall i :: 0 <= i < |r| ==> r[i] == s[Skipped(|s|, offset) + i]
  {
    var rest := s[Skipped(|s|, offset)..];
    if limit > 0 && limit < |rest| then rest[..limit] else rest
  }

  /** A window of an ordered sequence is ordered and holds only its rows. */
  lemma WindowOfSorted<T>(s: seq<T>, offset: int, limit: int, key: T -> int)
    requires SortedDesc(s, key)
    ensures SortedDesc(Window(s, offset, limit), key)
    ensures forall x | x in Window(s, offset, limit) :: x in s
  {
    var r := Window(s, offset, limit);
    var k := Skipped(|s|, offset);
    forall i, j | 0 <= i < j < |r| ensures key(r[i]) >= key(r[j]) {
      assert r[i] == s[k + i] && r[j] == s[k + j];
    }
    forall x | x in r ensures x in s {
      var i :| 0 <= i < |r| && r[i] == x;
      assert s[k + i] == x;
    }
  }

  /** The first `k` pages of `perPage` rows each, page `p` being the window at
      offset `(p - 1) * perPage`. */
  function FirstPages<T>(s: seq<T>, perPage: nat, k: nat): seq<T> {
    if k == 0 then [] else FirstPages(s, perPage, k - 1) + Window(s, (k - 1) * perPage, perPage)
  }

  /** A window with a non-negative offset and a positive limit is a slice. */
  lemma WindowIsSlice<T>(s: seq<T>, offset: nat, limit: nat)
    requires limit > 0
    ensures Window(s, offset, limit) == s[Min(offset, |s|)..Min(offset + limit, |s|)]
  {
  }

  /** Paging with offset `(page - 1) * perPage` neither skips nor repeats a row:
      the first `k` pages, one after the other, are exactly the first
      `k * perPage` rows. */
  lemma {:induction false} PagesTileRows<T>(s: seq<T>, perPage: nat, k: nat)
    requires perPage > 0
    ensures FirstPages(s, perPage, k) == s[..Min(k * perPage, |s|)]
  {
    if k > 0 {
      PagesTileRows(s, perPage, k - 1);
      var offset := (k - 1) * perPage;
      assert k * perPage == offset + perPage;
      var before := Min(offset, |s|);
      var after := Min(offset + perPage, |s|);
      WindowIsSlice(s, offset, perPage);
      assert s[..after] == s[..before] + s[before..after];
    }
  }
}
