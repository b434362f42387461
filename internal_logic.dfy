/**
 * The search engine of src/mirrsearch/internal_logic.py: it hands the query
 * and the three filters to a pluggable store, then cuts the store's result
 * list into one page and describes that page.
 */
module SearchLogic {
  import opened Wrappers
  import opened Seqs

  /** The arguments `InternalLogic.search` passes to `db_layer.search`, in order. */
  datatype StoreRequest = StoreRequest(
    query: Option<string>,
    documentType: Option<string>,
    agency: Option<string>,
    cfrPart: Option<string>)

  /**
   * `InternalLogic(database, db_layer)`. The store is any object with a
   * `search` method; it is modelled as the function that method computes.
   * There is no default store: the source imports `get_db` but never calls it.
   */
  datatype InternalLogic<T> = InternalLogic(database: string, dbLayer: StoreRequest -> seq<T>)

  /** The `"pagination"` dictionary. */
  datatype Pagination = Pagination(
    page: int,
    pageSize: int,
    totalResults: nat,
    totalPages: nat,
    hasNext: bool,
    hasPrev: bool)

  /** The dictionary `search` returns: the page and its description. */
  datatype Paginated<T> = Paginated(results: seq<T>, pagination: Pagination)

  /** `(total_results + page_size - 1) // page_size`. */
  function TotalPages(totalResults: nat, pageSize: int): nat
    requires pageSize >= 1
  {
    (totalResults + pageSize - 1) / pageSize
  }

  /**
   * Lines 37-59 of `search`: page arithmetic, one Python slice, the metadata.
   * A page size below 1 makes the source divide by zero or count pages
   * backwards; its only caller never passes one.
   */
  function Paginate<T>(all: seq<T>, page: int, pageSize: int): (r: Paginated<T>)
    requires pageSize >= 1
    ensures r.pagination.page == page && r.pagination.pageSize == pageSize
    ensures r.pagination.totalResults == |all|
    ensures r.pagination.totalPages == TotalPages(|all|, pageSize)
    ensures r.pagination.hasPrev <==> page > 1
    ensures r.pagination.hasNext <==> page < r.pagination.totalPages
    ensures |r.results| <= pageSize
  {
    var totalResults := |all|;
    var totalPages := TotalPages(totalResults, pageSize);
    var startIdx := PageStart(page, pageSize);
    var endIdx := startIdx + pageSize;
    var pageResults := Slice(all, startIdx, endIdx);
    SliceOfWidth(all, startIdx, pageSize);
    Paginated(pageResults, Pagination(page, pageSize, totalResults, totalPages, page < totalPages, page > 1))
  }

  /** A Python slice `s[i:i+w]` never holds more than `w` elements. */
  lemma SliceOfWidth<T>(all: seq<T>, i: int, w: nat)
    ensures |Slice(all, i, i + w)| <= w
  {
  }

  /**
   * `InternalLogic.search`: one call to the store with the query and the
   * three filters unchanged and in order, then pagination of what it returned.
   */
  function Search<T>(logic: InternalLogic<T>, query: Option<string>, documentType: Option<string>,
                     agency: Option<string>, cfrPart: Option<string>, page: int, pageSize: int): (r: Paginated<T>)
    requires pageSize >= 1
    ensures var all := logic.dbLayer(StoreRequest(query, documentType, agency, cfrPart));
      && r.pagination.totalResults == |all|
      && r.pagination.page == page && r.pagination.pageSize == pageSize
      && r.pagination.totalPages == TotalPages(|all|, pageSize)
      && (r.pagination.hasNext <==> page < r.pagination.totalPages)
      && (r.pagination.hasPrev <==> page > 1)
      && |r.results| <= pageSize
      && (page >= 1 ==> r.results == all[Min(PageStart(page, pageSize), |all|)..Min(PageStart(page, pageSize) + pageSize, |all|)])
  {
    var allResults := logic.dbLayer(StoreRequest(query, documentType, agency, cfrPart));
    if page >= 1 then
      PageContents(allResults, page, pageSize);
      Paginate(allResults, page, pageSize)
    else
      Paginate(allResults, page, pageSize)
  }

  /** Index of the first result on a page: `(page - 1) * page_size`. */
  function PageStart(page: int, pageSize: int): (start: int)
    ensures page >= 1 && pageSize >= 0 ==> start >= 0
  {
    (page - 1) * pageSize
  }

  lemma ProductFacts(a: int, b: int)
    requires b >= 1
    ensures a >= 1 ==> a * b >= b
    ensures a >= 0 ==> a * b >= 0
    ensures a <= 0 ==> a * b <= 0
    ensures (a - 1) * b == a * b - b
  {
  }

  lemma MultiplyMonotone(a: int, b: int, c: nat)
    requires a <= b
    ensures a * c <= b * c
  {
  }

  /** The page count is the ceiling of results over page size, and 0 only without results. */
  lemma TotalPagesIsCeiling(totalResults: nat, pageSize: int)
    requires pageSize >= 1
    ensures TotalPages(totalResults, pageSize) * pageSize >= totalResults
    ensures totalResults > 0 ==> (TotalPages(totalResults, pageSize) - 1) * pageSize < totalResults
    ensures TotalPages(totalResults, pageSize) == 0 <==> totalResults == 0
  {
    var n := totalResults + pageSize - 1;
    var q, r := n / pageSize, n % pageSize;
    assert n == q * pageSize + r && 0 <= r < pageSize;
    ProductFacts(q, pageSize);
  }

  /**
   * For a page number of at least 1, the page is the slice from
   * `(page-1)*page_size`, cut short by the end of the list.
   */
  lemma PageContents<T>(all: seq<T>, page: int, pageSize: int)
    requires pageSize >= 1 && page >= 1
    ensures var start := PageStart(page, pageSize);
      && Paginate(all, page, pageSize).results == all[Min(start, |all|)..Min(start + pageSize, |all|)]
      && |Paginate(all, page, pageSize).results| == Min(pageSize, Max(0, |all| - start))
  {
    var start := PageStart(page, pageSize);
    assert start >= 0 by {
      ProductFacts(page - 1, pageSize);
    }
    PageIsWindow(all, page, pageSize);
    SliceWindow(all, start, pageSize);
  }

  lemma PageIsWindow<T>(all: seq<T>, page: int, pageSize: int)
    requires pageSize >= 1
    ensures Paginate(all, page, pageSize).results == Slice(all, PageStart(page, pageSize), PageStart(page, pageSize) + pageSize)
  {
  }

  lemma SliceWindow<T>(all: seq<T>, start: nat, width: nat)
    ensures Slice(all, start, start + width) == all[Min(start, |all|)..Min(start + width, |all|)]
    ensures |Slice(all, start, start + width)| == Min(width, Max(0, |all| - start))
  {
  }

  /** A page past the last one is empty and has no successor; it is never an error. */
  lemma PastLastPageIsEmpty<T>(all: seq<T>, page: int, pageSize: int)
    requires pageSize >= 1 && page > TotalPages(|all|, pageSize)
    ensures Paginate(all, page, pageSize).results == []
    ensures !Paginate(all, page, pageSize).pagination.hasNext
  {
    TotalPagesIsCeiling(|all|, pageSize);
    var tp := TotalPages(|all|, pageSize);
    MultiplyMonotone(tp, page - 1, pageSize);
    PageContents(all, page, pageSize);
  }

  /** Every page from 1 to the last is non-empty, and every page before the last is full. */
  lemma PagesInRangeAreFilled<T>(all: seq<T>, page: int, pageSize: int)
    requires pageSize >= 1 && 1 <= page <= TotalPages(|all|, pageSize)
    ensures |Paginate(all, page, pageSize).results| >= 1
    ensures page < TotalPages(|all|, pageSize) ==> |Paginate(all, page, pageSize).results| == pageSize
  {
    TotalPagesIsCeiling(|all|, pageSize);
    var tp := TotalPages(|all|, pageSize);
    PageContents(all, page, pageSize);
    MultiplyMonotone(page - 1, tp - 1, pageSize);
    if page < tp {
      MultiplyMonotone(page, tp - 1, pageSize);
      ProductFacts(page, pageSize);
    }
  }

  /** Pages 1 to k, concatenated. */
  function PagesThrough<T>(all: seq<T>, pageSize: int, k: nat): seq<T>
    requires pageSize >= 1
  {
    if k == 0 then [] else PagesThrough(all, pageSize, k - 1) + Paginate(all, k, pageSize).results
  }

  lemma {:induction false} PagesThroughIsPrefix<T>(all: seq<T>, pageSize: int, k: nat)
    requires pageSize >= 1
    ensures PagesThrough(all, pageSize, k) == all[..Min(|all|, k * pageSize)]
  {
    if k > 0 {
      PagesThroughIsPrefix(all, pageSize, k - 1);
      PagesThroughStep(all, pageSize, k);
      PrefixStep(all, (k - 1) * pageSize, k * pageSize);
    }
  }

  lemma PagesThroughStep<T>(all: seq<T>, pageSize: int, k: nat)
    requires pageSize >= 1 && k >= 1
    ensures 0 <= (k - 1) * pageSize <= k * pageSize
    ensures PagesThrough(all, pageSize, k)
      == PagesThrough(all, pageSize, k - 1) + all[Min((k - 1) * pageSize, |all|)..Min(k * pageSize, |all|)]
  {
    PageBounds(k, pageSize);
    PageContents(all, k, pageSize);
  }

  lemma PrefixStep<T>(all: seq<T>, lo: nat, hi: nat)
    requires lo <= hi
    ensures all[..Min(|all|, lo)] + all[Min(lo, |all|)..Min(hi, |all|)] == all[..Min(|all|, hi)]
  {
  }

  /** Page k starts where page k - 1 ends and runs for one page size. */
  lemma PageBounds(k: nat, pageSize: int)
    requires k >= 1 && pageSize >= 1
    ensures 0 <= PageStart(k, pageSize) == (k - 1) * pageSize <= k * pageSize
    ensures PageStart(k, pageSize) + pageSize == k * pageSize
  {
    ProductFacts(k, pageSize);
    ProductFacts(k - 1, pageSize);
  }

  /** Pages 1 to `total_pages` put together give back the whole result list: no gap, no overlap. */
  lemma PagesReassemble<T>(all: seq<T>, pageSize: int)
    requires pageSize >= 1
    ensures PagesThrough(all, pageSize, TotalPages(|all|, pageSize)) == all
  {
    TotalPagesIsCeiling(|all|, pageSize);
    PagesThroughIsPrefix(all, pageSize, TotalPages(|all|, pageSize));
  }

  /**
   * The scenario of tests/test_pagination.py: 25 results, ten per page,
   * give three pages; the first is full, the third holds five.
   */
  lemma TwentyFiveResults<T>(all: seq<T>)
    requires |all| == 25
    ensures var first := Paginate(all, 1, 10);
      && |first.results| == 10 && first.pagination.totalPages == 3
      && first.pagination.hasNext && !first.pagination.hasPrev
    ensures var last := Paginate(all, 3, 10);
      && |last.results| == 5 && !last.pagination.hasNext && last.pagination.hasPrev
    ensures Paginate(all, 999, 10).results == []
  {
    PageContents(all, 1, 10);
    PageContents(all, 3, 10);
    PastLastPageIsEmpty(all, 999, 10);
  }
}
