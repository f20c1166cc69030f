/**
 * The list queries shared by the playlist and library tables: an ORDER BY on
 * a timestamp, newest first, followed by LIMIT size OFFSET (page-1)*size,
 * and the page/size defaults the services apply before querying.
 */
module Paging {

  /** Ordered by `key`, largest first. */
  predicate SortedDesc<T>(s: seq<T>, key: T -> int)
  {
    forall i, j :: 0 <= i < j < |s| ==> key(s[i]) >= key(s[j])
  }

  /** Places `x` before the first element whose key is not larger than its own. */
  function InsertDesc<T>(x: T, s: seq<T>, key: T -> int): (r: seq<T>)
    ensures multiset(r) == multiset(s) + multiset{x}
    ensures |r| == |s| + 1
    ensures r[0] == x || (s != [] && r[0] == s[0])
  {
    if s == [] then [x]
    else if key(x) >= key(s[0]) then [x] + s
    else
      var rest := InsertDesc(x, s[1..], key);
      assert s == [s[0]] + s[1..];
      [s[0]] + rest
  }

  /** Inserting into a newest-first list keeps it newest-first. */
  lemma {:induction false} InsertDescSorted<T>(x: T, s: seq<T>, key: T -> int)
    requires SortedDesc(s, key)
    ensures SortedDesc(InsertDesc(x, s, key), key)
  {
    if s == [] {
    } else if key(x) >= key(s[0]) {
      ConsSorted(x, s, key);
    } else {
      assert SortedDesc(s[1..], key);
      InsertDescSorted(x, s[1..], key);
      ConsSorted(s[0], InsertDesc(x, s[1..], key), key);
    }
  }

  /** A head no smaller than the first key of a sorted list keeps it sorted. */
  lemma ConsSorted<T>(h: T, s: seq<T>, key: T -> int)
    requires SortedDesc(s, key)
    requires s != [] ==> key(h) >= key(s[0])
    ensures SortedDesc([h] + s, key)
  {
    var r := [h] + s;
    forall i, j | 0 <= i < j < |r| ensures key(r[i]) >= key(r[j]) {
      if i == 0 {
        assert r[j] == s[j - 1];
        if j > 1 { assert key(s[0]) >= key(s[j - 1]); }
      } else {
        assert r[i] == s[i - 1] && r[j] == s[j - 1];
      }
    }
  }

  /**
   * An insertion sort, newest first. Rows with equal keys keep their table
   * order; the database leaves their order unspecified.
   */
  function SortDesc<T>(s: seq<T>, key: T -> int): (r: seq<T>)
    ensures multiset(r) == multiset(s)
    ensures |r| == |s|
    ensures SortedDesc(r, key)
  {
    if s == [] then []
    else
      assert s == [s[0]] + s[1..];
      InsertDescSorted(s[0], SortDesc(s[1..], key), key);
      InsertDesc(s[0], SortDesc(s[1..], key), key)
  }

  /** The rows satisfying `p`, in table order. */
  function Filter<T>(s: seq<T>, p: T -> bool): (r: seq<T>)
    ensures |r| <= |s|
    ensures forall x :: x in r ==> x in s && p(x)
    ensures forall x :: x in s && p(x) ==> x in r
  {
    if s == [] then []
    else
      assert s == [s[0]] + s[1..];
      (if p(s[0]) then [s[0]] else []) + Filter(s[1..], p)
  }

  /** No row satisfies `p`: the where-clause selects nothing. */
  lemma {:induction false} FilterNone<T>(s: seq<T>, p: T -> bool)
    requires forall x :: x in s ==> !p(x)
    ensures Filter(s, p) == []
  {
    if s != [] {
      assert s[0] in s;
      FilterNone(s[1..], p);
    }
  }

  /** How many rows satisfy `p`: the COUNT of the same where-clause. */
  function Count<T>(s: seq<T>, p: T -> bool): (n: nat)
    ensures n == |Filter(s, p)|
  {
    if s == [] then 0 else (if p(s[0]) then 1 else 0) + Count(s[1..], p)
  }

  function Min(a: int, b: int): int { if a <= b then a else b }

  /** The rows from `offset` on, at most `size` of them. */
  function Window<T>(rows: seq<T>, offset: nat, size: nat): (r: seq<T>)
    ensures |r| <= size
    ensures offset >= |rows| ==> r == []
    ensures offset < |rows| ==> |r| == Min(size, |rows| - offset)
    ensures forall i :: 0 <= i < |r| ==> offset + i < |rows| && r[i] == rows[offset + i]
    ensures forall x :: x in r ==> x in rows
  {
    if offset >= |rows| then [] else
      var r := rows[offset..Min(offset + size, |rows|)];
      assert forall x :: x in r ==> x in rows by {
        forall x | x in r ensures x in rows {
          var i :| 0 <= i < |r| && r[i] == x;
          assert rows[offset + i] == x;
        }
      }
      r
  }

  lemma {:induction false} OffsetNonNegative(page: int, size: int)
    requires page >= 1 && size >= 1
    ensures (page - 1) * size >= 0
  {
    if page > 1 {
      OffsetNonNegative(page - 1, size);
      assert (page - 1) * size == (page - 2) * size + size;
    }
  }

  /** LIMIT size OFFSET (page-1)*size. */
  function PageOf<T>(rows: seq<T>, page: int, size: int): (r: seq<T>)
    requires page >= 1 && size >= 1
    ensures |r| <= size
    ensures (page - 1) * size >= |rows| ==> r == []
    ensures (page - 1) * size < |rows| ==> |r| == Min(size, |rows| - (page - 1) * size)
    ensures forall i :: 0 <= i < |r| ==> (page - 1) * size + i < |rows| && r[i] == rows[(page - 1) * size + i]
    ensures forall x :: x in r ==> x in rows
  {
    OffsetNonNegative(page, size);
    Window(rows, (page - 1) * size, size)
  }

  /** A page of an ordered listing is itself ordered. */
  lemma PageOfSorted<T>(rows: seq<T>, page: int, size: int, key: T -> int)
    requires page >= 1 && size >= 1
    requires SortedDesc(rows, key)
    ensures SortedDesc(PageOf(rows, page, size), key)
  {
    var r := PageOf(rows, page, size);
    forall i, j | 0 <= i < j < |r|
      ensures key(r[i]) >= key(r[j])
    {
      assert r[i] == rows[(page - 1) * size + i] && r[j] == rows[(page - 1) * size + j];
    }
  }

  /**
   * One page of a list query: WHERE `where` ORDER BY `key` DESC LIMIT size
   * OFFSET (page-1)*size, together with the COUNT of the same where-clause.
   */
  function Listing<T>(rows: seq<T>, where: T -> bool, key: T -> int, page: int, size: int): (r: (seq<T>, nat))
    requires page >= 1 && size >= 1
    ensures r.1 == |Filter(rows, where)|
    ensures |r.0| <= size
    ensures forall x :: x in r.0 ==> x in rows && where(x)
    ensures SortedDesc(r.0, key)
  {
    var sorted := SortDesc(Filter(rows, where), key);
    PageOfSorted(sorted, page, size, key);
    assert forall x :: x in sorted ==> x in multiset(Filter(rows, where));
    (PageOf(sorted, page, size), Count(rows, where))
  }

  /**
   * Reading pages 1..n of a listing, once n pages hold `total` rows, yields
   * every selected row exactly once.
   */
  lemma ListingPagesCover<T>(rows: seq<T>, where: T -> bool, key: T -> int, n: nat, size: int)
    requires size >= 1
    requires n * size >= Listing(rows, where, key, 1, size).1
    ensures multiset(Pages(SortDesc(Filter(rows, where), key), n, size)) == multiset(Filter(rows, where))
    ensures forall k :: 1 <= k <= n ==> PageOf(SortDesc(Filter(rows, where), key), k, size) == Listing(rows, where, key, k, size).0
  {
    var sorted := SortDesc(Filter(rows, where), key);
    PagesArePrefix(sorted, n, size);
    assert sorted[..Min(n * size, |sorted|)] == sorted;
  }

  /** Non-positive page numbers and sizes are replaced by defaults before querying. */
  function Defaulted(page: int, size: int, defaultSize: nat): (r: (int, int))
    requires defaultSize >= 1
    ensures r.0 >= 1 && r.1 >= 1
    ensures page >= 1 ==> r.0 == page
    ensures size >= 1 ==> r.1 == size
    ensures page <= 0 ==> r.0 == 1
    ensures size <= 0 ==> r.1 == defaultSize
  {
    (if page <= 0 then 1 else page, if size <= 0 then defaultSize else size)
  }

  /** The pages 1..n, one after the other. */
  function Pages<T>(rows: seq<T>, n: nat, size: int): seq<T>
    requires size >= 1
  {
    if n == 0 then [] else Pages(rows, n - 1, size) + PageOf(rows, n, size)
  }

  /** Reading pages 1..n in turn yields the first n*size rows, without gaps or repeats. */
  lemma {:induction false} PagesArePrefix<T>(rows: seq<T>, n: nat, size: int)
    requires size >= 1
    ensures Pages(rows, n, size) == rows[..Min(n * size, |rows|)]
  {
    if n > 0 {
      PagesArePrefix(rows, n - 1, size);
      OffsetNonNegative(n, size);
      assert n * size == (n - 1) * size + size;
      var before := rows[..Min((n - 1) * size, |rows|)];
      var page := PageOf(rows, n, size);
      if (n - 1) * size < |rows| {
        assert page == rows[(n - 1) * size..Min(n * size, |rows|)];
        assert before + page == rows[..Min(n * size, |rows|)];
      } else {
        assert page == [];
      }
    }
  }
}
