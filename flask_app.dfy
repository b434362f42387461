/**
 * The request handling of src/mirrsearch/app.py: reading the search and
 * paging arguments with their defaults, and returning one page as a JSON
 * list with the paging metadata in response headers.
 */
module FlaskApp {
  import opened Wrappers
  import opened Text
  import opened SearchLogic
  import opened Seqs

  /**
   * The query arguments of `GET /search/`. `query` is the `str` argument.
   * `page` and `pageSize` are the integer the argument parses to, or `None`
   * when it is missing or does not parse; `args.get(..., default=d, type=int)`
   * then returns the default `d`, as `GetPaginationParams` does.
   */
  datatype QueryArgs = QueryArgs(
    query: Option<string>,
    documentType: Option<string>,
    agency: Option<string>,
    cfrPart: Option<string>,
    page: Option<int>,
    pageSize: Option<int>)

  /** The dictionary `_get_search_params` returns. */
  datatype SearchParams = SearchParams(
    searchInput: string,
    documentType: Option<string>,
    agency: Option<string>,
    cfrPart: Option<string>)

  const DefaultSearchInput: string := "example_query"
  const DefaultPage: int := 1
  const DefaultPageSize: int := 10
  const MaxPageSize: int := 100

  /** `request.args.get('str') or 'example_query'`; the filters are read as given. */
  function GetSearchParams(args: QueryArgs): (p: SearchParams)
    ensures !Present(args.query) ==> p.searchInput == DefaultSearchInput
    ensures Present(args.query) ==> p.searchInput == args.query.value
    ensures p.searchInput != ""
    ensures p.documentType == args.documentType && p.agency == args.agency && p.cfrPart == args.cfrPart
  {
    SearchParams(
      if Present(args.query) then args.query.value else DefaultSearchInput,
      args.documentType,
      args.agency,
      args.cfrPart)
  }

  /** `_get_pagination_params`: the page is floored at 1, an out-of-range page size becomes 10. */
  function GetPaginationParams(args: QueryArgs): (r: (int, int))
    ensures r.0 >= 1 && 1 <= r.1 <= MaxPageSize
    ensures r.0 == Max(args.page.GetOr(DefaultPage), 1)
    ensures var asked := args.pageSize.GetOr(DefaultPageSize);
      r.1 == if 1 <= asked <= MaxPageSize then asked else DefaultPageSize
  {
    var page := Max(args.page.GetOr(DefaultPage), 1);
    var pageSize := args.pageSize.GetOr(DefaultPageSize);
    if pageSize < 1 || pageSize > MaxPageSize then (page, DefaultPageSize) else (page, pageSize)
  }

  /** Python's `str(b).lower()` of a boolean. */
  function BoolHeader(b: bool): (h: string)
    ensures h == "true" <==> b
    ensures h == "false" <==> !b
  {
    if b then "true" else "false"
  }

  /** The six headers `_build_paginated_response` writes. */
  function PaginationHeaders(p: Pagination): (h: map<string, string>)
    ensures h.Keys == {"X-Page", "X-Page-Size", "X-Total-Results", "X-Total-Pages", "X-Has-Next", "X-Has-Prev"}
  {
    map[
      "X-Page" := IntToString(p.page),
      "X-Page-Size" := IntToString(p.pageSize),
      "X-Total-Results" := IntToString(p.totalResults),
      "X-Total-Pages" := IntToString(p.totalPages),
      "X-Has-Next" := BoolHeader(p.hasNext),
      "X-Has-Prev" := BoolHeader(p.hasPrev)]
  }

  /** Every header reads back as the metadata field it renders. */
  lemma PaginationHeadersRoundTrip(p: Pagination)
    ensures var h := PaginationHeaders(p);
      && ParseInt(h["X-Page"]) == Some(p.page)
      && ParseInt(h["X-Page-Size"]) == Some(p.pageSize)
      && ParseInt(h["X-Total-Results"]) == Some(p.totalResults)
      && ParseInt(h["X-Total-Pages"]) == Some(p.totalPages)
      && (h["X-Has-Next"] == "true" <==> p.hasNext)
      && (h["X-Has-Prev"] == "true" <==> p.hasPrev)
      && h["X-Has-Next"] in {"true", "false"} && h["X-Has-Prev"] in {"true", "false"}
  {
    IntToStringRoundTrip(p.page);
    IntToStringRoundTrip(p.pageSize);
    IntToStringRoundTrip(p.totalResults);
    IntToStringRoundTrip(p.totalPages);
  }

  /** The header `jsonify` sets. */
  function JsonHeaders(): map<string, string> {
    map["Content-Type" := "application/json"]
  }

  /** A Flask response: a JSON body and its headers. */
  class Response<T> {
    var body: seq<T>
    var headers: map<string, string>

    /** `jsonify(data)`. */
    constructor Jsonify(data: seq<T>)
      ensures body == data && headers == JsonHeaders()
    {
      body := data;
      headers := JsonHeaders();
    }
  }

  /**
   * `_build_paginated_response`: the body is the page's list itself, not the
   * wrapper dictionary; the metadata goes into six headers, one at a time.
   */
  method BuildPaginatedResponse<T>(results: seq<T>, pagination: Pagination) returns (response: Response<T>)
    ensures fresh(response)
    ensures response.body == results
    ensures response.headers == JsonHeaders() + PaginationHeaders(pagination)
  {
    response := new Response.Jsonify(results);
    var headers := response.headers;
    headers := headers["X-Page" := IntToString(pagination.page)];
    headers := headers["X-Page-Size" := IntToString(pagination.pageSize)];
    headers := headers["X-Total-Results" := IntToString(pagination.totalResults)];
    headers := headers["X-Total-Pages" := IntToString(pagination.totalPages)];
    headers := headers["X-Has-Next" := BoolHeader(pagination.hasNext)];
    headers := headers["X-Has-Prev" := BoolHeader(pagination.hasPrev)];
    response.headers := headers;
  }

  /**
   * The body of the `/search/` route: normalise the arguments, run the
   * engine over the configured store, answer with one page. The normalised
   * page size always meets the engine's requirement of at least 1.
   */
  method HandleSearch<T>(args: QueryArgs, dbLayer: StoreRequest -> seq<T>) returns (response: Response<T>)
    ensures fresh(response)
    ensures var params := GetSearchParams(args);
      var all := dbLayer(StoreRequest(Some(params.searchInput), params.documentType, params.agency, params.cfrPart));
      var (page, pageSize) := GetPaginationParams(args);
      var totalPages := TotalPages(|all|, pageSize);
      && response.body == all[Min(PageStart(page, pageSize), |all|)..Min(PageStart(page, pageSize) + pageSize, |all|)]
      && response.headers == JsonHeaders() + PaginationHeaders(
           Pagination(page, pageSize, |all|, totalPages, page < totalPages, page > 1))
  {
    var params := GetSearchParams(args);
    var (page, pageSize) := GetPaginationParams(args);
    var logic := InternalLogic("sample_database", dbLayer);
    var result := Search(logic, Some(params.searchInput), params.documentType, params.agency, params.cfrPart, page, pageSize);
    response := BuildPaginatedResponse(result.results, result.pagination);
  }

  /** Examples from tests/test_pagination.py: page 0 becomes 1, page size 999 becomes 10, 5 stays 5. */
  lemma PaginationDefaults()
    ensures GetPaginationParams(QueryArgs(None, None, None, None, Some(0), None)) == (1, 10)
    ensures GetPaginationParams(QueryArgs(None, None, None, None, None, Some(999))) == (1, 10)
    ensures GetPaginationParams(QueryArgs(None, None, None, None, None, Some(5))) == (1, 5)
    ensures GetPaginationParams(QueryArgs(None, None, None, None, Some(999), None)) == (999, 10)
  {
  }

  /** A term of spaces only is not empty, so it is searched for as it is. */
  lemma BlankTermIsKept()
    ensures GetSearchParams(QueryArgs(Some("  "), None, None, None, None, None)).searchInput == "  "
  {
  }
}
