/** Client-side pagination shared by the sales history, the farmer
    directory and the ledger view: `list.slice((page - 1) * size, page * size)`,
    `Math.ceil(n / size)` pages, a "Showing a-b of n" label, row serial
    numbers, and the previous/next buttons. */
module Paging {
  import opened Common

  /** `Array.prototype.slice(from, to)`: negative positions count from the
      end, positions past the end are clamped, and an empty range gives []. */
  function Slice<T>(s: seq<T>, from: int, to: int): (r: seq<T>)
    ensures var a := if from < 0 then Max(|s| + from, 0) else Min(from, |s|);
            var b := if to < 0 then Max(|s| + to, 0) else Min(to, |s|);
            r == if a < b then s[a..b] else []
  {
    var a := if from < 0 then Max(|s| + from, 0) else Min(from, |s|);
    var b := if to < 0 then Max(|s| + to, 0) else Min(to, |s|);
    if a < b then s[a..b] else []
  }

  /** The position of the first row of page `page` (counted from 1). */
  function PageStart(page: int, size: nat): int {
    (page - 1) * size
  }

  /** The rows of page `page`: the slice from `(page - 1) * size` to
      `page * size`, which is one page size further. */
  function PageRows<T>(s: seq<T>, page: int, size: nat): (r: seq<T>)
    requires size > 0
    ensures |r| <= size
    ensures page >= 1 ==>
              && |r| == Max(0, Min(PageStart(page, size) + size, |s|) - PageStart(page, size))
              && forall i :: 0 <= i < |r| ==> r[i] == s[PageStart(page, size) + i]
  {
    if page >= 1 then PageStartNonNegative(page, size); Window(s, PageStart(page, size), size)
    else Window(s, PageStart(page, size), size)
  }

  /** A slice one page size long: never longer than that, and from a
      non-negative position exactly the elements there. */
  function Window<T>(s: seq<T>, from: int, size: nat): (r: seq<T>)
    ensures |r| <= size
    ensures from >= 0 ==>
              && |r| == Max(0, Min(from + size, |s|) - from)
              && forall i :: 0 <= i < |r| ==> r[i] == s[from + i]
  {
    Slice(s, from, from + size)
  }

  lemma PageStartNonNegative(page: int, size: nat)
    requires page >= 1
    ensures PageStart(page, size) >= 0
  {
  }

  /** Page `page` ends one page size after it starts. */
  lemma PageBounds(page: int, size: nat)
    ensures page * size == (page - 1) * size + size
  {
  }

  function TotalPages(n: nat, size: nat): (r: nat)
    requires size > 0
    ensures r * size >= n && (r == 0 || (r - 1) * size < n)
  {
    CeilDiv(n, size)
  }

  /** The serial number printed in front of row `index` of page `page`. */
  function Serial(page: int, size: nat, index: nat): int {
    (page - 1) * size + index + 1
  }

  /** "Showing `first`-`last` of n". */
  function ShowingFirst(page: int, size: nat): int {
    (page - 1) * size + 1
  }

  function ShowingLast(page: int, size: nat, n: nat): int {
    Min(page * size, n)
  }

  /** Row `index` of a page is the list element its serial number names. */
  lemma SerialNamesRow<T>(s: seq<T>, page: int, size: nat, index: nat)
    requires size > 0 && page >= 1 && index < |PageRows(s, page, size)|
    ensures 1 <= Serial(page, size, index) <= |s|
    ensures PageRows(s, page, size)[index] == s[Serial(page, size, index) - 1]
  {
  }

  /** On every page that exists, the label's range counts exactly the rows shown. */
  lemma {:induction false} ShowingCountsRows<T>(s: seq<T>, page: int, size: nat)
    requires size > 0 && 1 <= page <= TotalPages(|s|, size)
    ensures 1 <= ShowingFirst(page, size) <= ShowingLast(page, size, |s|)
    ensures ShowingLast(page, size, |s|) - ShowingFirst(page, size) + 1 == |PageRows(s, page, size)|
  {
    var t := TotalPages(|s|, size);
    assert (page - 1) * size <= (t - 1) * size by {
      MulMono(page - 1, t - 1, size);
    }
  }

  lemma MulMono(a: int, b: int, c: nat)
    requires a <= b
    ensures a * c <= b * c
  {
  }

  /** The first `k` pages, one after another. */
  function FirstPages<T>(s: seq<T>, size: nat, k: nat): seq<T>
    requires size > 0
  {
    if k == 0 then [] else FirstPages(s, size, k - 1) + PageRows(s, k, size)
  }

  /** The first `k` pages are the list's first `k * size` rows. */
  lemma {:induction false} FirstPagesPrefix<T>(s: seq<T>, size: nat, k: nat)
    requires size > 0
    ensures FirstPages(s, size, k) == s[..Min(k * size, |s|)]
  {
    if k > 0 {
      FirstPagesPrefix(s, size, k - 1);
      NextPagePrefix(s, size, k, FirstPages(s, size, k - 1));
    }
  }

  /** The rows before page `k`, followed by page `k`, are the rows up to its end. */
  lemma NextPagePrefix<T>(s: seq<T>, size: nat, k: nat, before: seq<T>)
    requires size > 0 && k >= 1 && before == s[..Min((k - 1) * size, |s|)]
    ensures before + PageRows(s, k, size) == s[..Min(k * size, |s|)]
  {
    PageBounds(k, size);
    PageStartNonNegative(k, size);
    AppendPage(s, PageStart(k, size), size, before, PageRows(s, k, size));
  }

  /** The rows before a position, followed by a page from there, are the rows up to the page's end. */
  lemma AppendPage<T>(s: seq<T>, from: int, size: nat, before: seq<T>, page: seq<T>)
    requires 0 <= from && before == s[..Min(from, |s|)]
    requires |page| == Max(0, Min(from + size, |s|) - from)
    requires forall i :: 0 <= i < |page| ==> page[i] == s[from + i]
    ensures before + page == s[..Min(from + size, |s|)]
  {
  }

  /** Paging through every page shows each row once, in order. */
  lemma PagesCoverList<T>(s: seq<T>, size: nat)
    requires size > 0
    ensures FirstPages(s, size, TotalPages(|s|, size)) == s
  {
    FirstPagesPrefix(s, size, TotalPages(|s|, size));
  }

  /** The ledger view's guarded handlers: forward only while a later page
      exists, back only while an earlier one does. */
  function NextPage(page: int, totalPages: nat): (r: int)
    ensures page < totalPages ==> r == page + 1
    ensures page >= totalPages ==> r == page
  {
    if page < totalPages then page + 1 else page
  }

  function PrevPage(page: int): (r: int)
    ensures page > 1 ==> r == page - 1
    ensures page <= 1 ==> r == page
  {
    if page > 1 then page - 1 else page
  }

  /** The guarded handlers keep the page in `1..max(1, totalPages)`. */
  lemma GuardedPagerStaysInRange(page: int, totalPages: nat)
    requires 1 <= page <= Max(1, totalPages)
    ensures 1 <= NextPage(page, totalPages) <= Max(1, totalPages)
    ensures 1 <= PrevPage(page) <= Max(1, totalPages)
  {
  }

  /** The buttons of the sales history and the farmer directory: each is
      disabled on the page where it would leave the range (first page for
      back, last page for forward), and otherwise moves one page. */
  function ButtonNext(page: int, totalPages: nat): (r: int)
    ensures page == totalPages ==> r == page
    ensures page != totalPages ==> r == page + 1
  {
    if page == totalPages then page else page + 1
  }

  function ButtonPrev(page: int): (r: int)
    ensures page == 1 ==> r == page
    ensures page != 1 ==> r == page - 1
  {
    if page == 1 then page else page - 1
  }

  /** While the page is one that exists, the buttons keep it so; on such
      pages they agree with the guarded handlers. */
  lemma ButtonsStayInRange(page: int, totalPages: nat)
    requires 1 <= page <= totalPages
    ensures 1 <= ButtonNext(page, totalPages) <= totalPages
    ensures 1 <= ButtonPrev(page) <= totalPages
    ensures ButtonNext(page, totalPages) == NextPage(page, totalPages)
    ensures ButtonPrev(page) == PrevPage(page)
  {
  }
}
