/** Page slices and next/previous flags. */
module Pagination {
  import opened Results
  import opened Windows

  const DEFAULT_PAGE_SIZE: int := 20

  datatype PaginationResponse = PaginationResponse(
    currentPage: int,
    pageSize: int,
    hasNextPage: bool,
    hasPreviousPage: bool)

  /** `None` is a null source list. */
  function GetPage<T>(sourceList: Option<seq<T>>, page: int): seq<T> {
    if page < 0 then []
    else
      var fromIndex := page * DEFAULT_PAGE_SIZE;
      if sourceList.None? || |sourceList.value| <= fromIndex then []
      else sourceList.value[fromIndex..Min(fromIndex + DEFAULT_PAGE_SIZE, |sourceList.value|)]
  }

  function GetPaginationMetadataTokenX(dataCount: int, requestedPage: int, pageSize: int := DEFAULT_PAGE_SIZE)
    : PaginationResponse
  {
    PaginationResponse(
      requestedPage,
      pageSize,
      dataCount > (requestedPage + 1) * pageSize,
      requestedPage > 0 && dataCount > (requestedPage - 1) * pageSize)
  }

  function GetPaginationMetadata<T>(sourceList: seq<T>, requestedPage: int, pageSize: int := DEFAULT_PAGE_SIZE)
    : PaginationResponse
  {
    PaginationResponse(
      requestedPage,
      pageSize,
      |sourceList| > (requestedPage + 1) * pageSize,
      requestedPage > 0 && |sourceList| > (requestedPage - 1) * pageSize)
  }

  predicate HasNextPage(totalRows: int, pageNumber: int, pageSize: int) {
    totalRows > (pageNumber + 1) * pageSize
  }

  predicate HasPreviousPage(totalRows: int, pageNumber: int, pageSize: int) {
    pageNumber > 0 && totalRows > (pageNumber - 1) * pageSize
  }

  /* ---------- what a page is, stated by division of indices ---------- */

  /** Some row index lies on the given page. */
  ghost predicate PageHasRows(totalRows: int, page: int, pageSize: int)
    requires pageSize > 0
  {
    exists i: nat :: i < totalRows && OnPage(i, page, pageSize)
  }

  ghost predicate OnPage(i: nat, page: int, pageSize: int)
    requires pageSize > 0
  {
    i / pageSize == page
  }

  lemma NonNegativeProduct(a: int, b: int)
    requires a >= 0 && b >= 0
    ensures a * b >= 0
  {
  }

  lemma Distributes(a: int, b: int, c: int)
    ensures (a + b) * c == a * c + b * c
  {
  }

  lemma ProductSign(a: int, b: int)
    requires b > 0
    ensures a >= 0 ==> a * b >= 0
    ensures a < 0 ==> a * b <= -b
  {
    if a >= 0 {
      NonNegativeProduct(a, b);
    } else {
      NonNegativeProduct(-a - 1, b);
      Distributes(a, -a - 1, b);
    }
  }

  lemma QuotientIs(i: int, page: int, pageSize: int)
    requires pageSize > 0
    ensures i / pageSize == page <==> page * pageSize <= i < (page + 1) * pageSize
  {
    var q := i / pageSize;
    var qs, ps := q * pageSize, page * pageSize;
    assert qs <= i < qs + pageSize;
    Distributes(page, 1, pageSize);
    Distributes(page, q - page, pageSize);
    ProductSign(q - page, pageSize);
    ProductSign(page - q, pageSize);
    Distributes(q, page - q, pageSize);
  }

  /** A page has rows exactly when it is not negative and its first index is below the row count. */
  lemma PageHasRowsFrom(totalRows: int, page: int, pageSize: int)
    requires pageSize > 0
    ensures PageHasRows(totalRows, page, pageSize) <==> page >= 0 && page * pageSize < totalRows
  {
    ProductSign(page, pageSize);
    if PageHasRows(totalRows, page, pageSize) {
      var i: nat :| i < totalRows && OnPage(i, page, pageSize);
      QuotientIs(i, page, pageSize);
    }
    if page >= 0 && page * pageSize < totalRows {
      var first := page * pageSize;
      QuotientIs(first, page, pageSize);
      assert (page + 1) * pageSize == first + pageSize;
      assert OnPage(first, page, pageSize);
    }
  }

  /** The next-page flag tells whether the next page has rows exactly for pages from -1 on; before that it is always set. */
  lemma NextFlagIsRightExactlyFromMinusOne(totalRows: nat, page: int, pageSize: int)
    requires pageSize > 0
    ensures (HasNextPage(totalRows, page, pageSize) <==> PageHasRows(totalRows, page + 1, pageSize)) <==> page >= -1
  {
    PageHasRowsFrom(totalRows, page + 1, pageSize);
    ProductSign(page + 1, pageSize);
  }

  /** The previous-page flag is right for every page number. */
  lemma PreviousFlagIsRight(totalRows: nat, page: int, pageSize: int)
    requires pageSize > 0
    ensures HasPreviousPage(totalRows, page, pageSize) <==> page > 0 && PageHasRows(totalRows, page - 1, pageSize)
  {
    PageHasRowsFrom(totalRows, page - 1, pageSize);
  }

  /** The three forms of the flags agree for every page number, the default page size is 20, and the flags describe the
      neighbouring pages: the previous one always, the next one from page -1 on. */
  lemma FlagsAgree<T>(list: seq<T>, page: int, pageSize: int)
    requires pageSize > 0
    ensures GetPaginationMetadata(list, page, pageSize) == GetPaginationMetadataTokenX(|list|, page, pageSize)
    ensures GetPaginationMetadata(list, page) == GetPaginationMetadata(list, page, 20)
         == GetPaginationMetadataTokenX(|list|, page) == GetPaginationMetadataTokenX(|list|, page, 20)
    ensures
      var m := GetPaginationMetadata(list, page, pageSize);
      && m.currentPage == page && m.pageSize == pageSize
      && (m.hasNextPage <==> HasNextPage(|list|, page, pageSize))
      && (page >= -1 ==> (m.hasNextPage <==> PageHasRows(|list|, page + 1, pageSize)))
      && (m.hasPreviousPage <==> HasPreviousPage(|list|, page, pageSize))
      && (m.hasPreviousPage <==> page > 0 && PageHasRows(|list|, page - 1, pageSize))
  {
    NextFlagIsRightExactlyFromMinusOne(|list|, page, pageSize);
    PreviousFlagIsRight(|list|, page, pageSize);
  }

  /* ---------- slices ---------- */

  /** A page holds exactly the items whose index divided by the page size is the page number, in order. */
  lemma PageHoldsItsItems<T>(list: seq<T>, page: int)
    ensures
      var p := GetPage(Some(list), page);
      && (p != [] <==> PageHasRows(|list|, page, 20))
      && (forall i: nat :: i < |list| && OnPage(i, page, 20) ==>
            0 <= i - page * 20 < |p| && p[i - page * 20] == list[i])
      && (forall j :: 0 <= j < |p| ==>
            && 0 <= page * 20 + j < |list|
            && p[j] == list[page * 20 + j]
            && OnPage(page * 20 + j, page, 20))
  {
    PageHasRowsFrom(|list|, page, DEFAULT_PAGE_SIZE);
    var p := GetPage(Some(list), page);
    forall i: nat | i < |list| && OnPage(i, page, DEFAULT_PAGE_SIZE)
      ensures 0 <= i - page * DEFAULT_PAGE_SIZE < |p| && p[i - page * DEFAULT_PAGE_SIZE] == list[i]
    {
      QuotientIs(i, page, DEFAULT_PAGE_SIZE);
    }
    forall j | 0 <= j < |p|
      ensures 0 <= page * DEFAULT_PAGE_SIZE + j < |list|
      ensures p[j] == list[page * DEFAULT_PAGE_SIZE + j]
      ensures OnPage(page * DEFAULT_PAGE_SIZE + j, page, DEFAULT_PAGE_SIZE)
    {
      QuotientIs(page * DEFAULT_PAGE_SIZE + j, page, DEFAULT_PAGE_SIZE);
    }
  }

  /** Null lists and pages out of range are empty; a page followed by a non-empty one is full. */
  lemma PagesAreFullButTheLast<T>(list: seq<T>, page: int)
    ensures GetPage<T>(None, page) == []
    ensures page < 0 || page * 20 >= |list| ==> GetPage(Some(list), page) == []
    ensures page >= 0 && GetPage(Some(list), page + 1) != [] ==> |GetPage(Some(list), page)| == 20
  {
  }

  lemma PageIsWindow<T>(list: seq<T>, page: nat)
    ensures GetPage(Some(list), page) == Window(list, page * DEFAULT_PAGE_SIZE, DEFAULT_PAGE_SIZE)
  {
  }

  function Concat<T>(pages: seq<seq<T>>): seq<T> {
    if pages == [] then [] else pages[0] + Concat(pages[1..])
  }

  /** The pages a client sees that starts at `page` and follows the next-page flag. */
  function Walk<T>(list: seq<T>, page: nat): seq<seq<T>>
    decreases |list| - page * DEFAULT_PAGE_SIZE
  {
    [GetPage(Some(list), page)]
    + if HasNextPage(|list|, page, DEFAULT_PAGE_SIZE) then Walk(list, page + 1) else []
  }

  lemma ConcatCons<T>(head: seq<T>, rest: seq<seq<T>>)
    ensures Concat([head] + rest) == head + Concat(rest)
  {
    assert ([head] + rest)[1..] == rest;
  }

  lemma {:induction false} WalkReadsTheRest<T>(list: seq<T>, page: nat)
    ensures Concat(Walk(list, page)) == list[Min(page * DEFAULT_PAGE_SIZE, |list|)..]
    decreases |list| - page * DEFAULT_PAGE_SIZE
  {
    var from, next := page * DEFAULT_PAGE_SIZE, (page + 1) * DEFAULT_PAGE_SIZE;
    PageIsWindow(list, page);
    var head := GetPage(Some(list), page);
    if next < |list| {
      WalkReadsTheRest(list, page + 1);
      ConcatCons(head, Walk(list, page + 1));
      assert list[from..] == list[from..next] + list[next..];
    } else {
      ConcatCons(head, []);
      assert Walk(list, page) == [head] + [];
    }
  }

  /** The walk shows its own page first and then, if it goes on, the walk from the next page. */
  lemma WalkGoesOn<T>(list: seq<T>, page: nat, k: nat)
    requires k < |Walk(list, page)|
    ensures Walk(list, page)[0] == GetPage(Some(list), page)
    ensures k > 0 ==> k - 1 < |Walk(list, page + 1)| && Walk(list, page)[k] == Walk(list, page + 1)[k - 1]
  {
  }

  lemma {:induction false} WalkVisitsInTurn<T>(list: seq<T>, page: nat, k: nat, visited: nat)
    requires k < |Walk(list, page)| && visited == page + k
    ensures Walk(list, page)[k] == GetPage(Some(list), visited)
    decreases k
  {
    WalkGoesOn(list, page, k);
    if k > 0 {
      WalkVisitsInTurn(list, page + 1, k - 1, visited);
    }
  }

  /** Following the next-page flag from page 0 reads every item once, in order, and stops. */
  lemma WalkReadsEverythingOnce<T>(list: seq<T>)
    ensures Concat(Walk(list, 0)) == list
    ensures forall k :: 0 <= k < |Walk(list, 0)| ==> Walk(list, 0)[k] == GetPage(Some(list), k)
  {
    WalkReadsTheRest(list, 0);
    forall k | 0 <= k < |Walk(list, 0)| ensures Walk(list, 0)[k] == GetPage(Some(list), k) {
      WalkVisitsInTurn(list, 0, k, k);
    }
  }

  /** Pages 0 to n-1 put together. */
  function FirstPages<T>(list: seq<T>, n: nat): seq<T> {
    if n == 0 then [] else FirstPages(list, n - 1) + GetPage(Some(list), n - 1)
  }

  /** Concatenating the pages gives back the list as far as they reach, and the whole list once they reach its end. */
  lemma {:induction false} PagesTile<T>(list: seq<T>, n: nat)
    ensures FirstPages(list, n) == list[..Min(n * DEFAULT_PAGE_SIZE, |list|)]
    ensures n * DEFAULT_PAGE_SIZE >= |list| ==> FirstPages(list, n) == list
  {
    if n > 0 {
      PagesTile(list, n - 1);
      PageIsWindow(list, n - 1);
      WindowsAdjoin(list, 0, (n - 1) * DEFAULT_PAGE_SIZE, DEFAULT_PAGE_SIZE);
    }
  }
}
