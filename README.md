# mirrsearch in Dafny

A verified model of the search path of mirrsearch, a small regulations search
service. It covers these parts:

- **The search engine** (`SearchLogic`, internal_logic.py). It hands a query and
  three filters to a pluggable store. It then cuts the store's result list into
  one page with Python slice semantics and describes the page: page, page size,
  total results, total pages, has next, has previous.
- **The HTTP layer** (`FlaskApp`, app.py). It reads the search and paging
  arguments with their defaults and clamps. It answers `/search/` with the page
  as a JSON list and the paging metadata in six `X-…` response headers.
- **The relational store** (`Db`, db.py).
  - The document search builds a parameterised SQL query clause by clause and
    maps the fetched rows to records by position.
  - The docket search groups joined rows by docket. For each docket it
    collects its CFR references per title, in first-seen order, with the link
    of the first row that names the title.
  - The grouping runs imperatively, as a loop over a `DocketTable` object
    whose dictionary is updated in place.
  - A database connection is modelled as the function from a built query to
    the rows it returns.
- **The in-memory test store** (`MockDb`, tests/mock_db.py). It holds two fixed
  records, searched by a trimmed, lower-cased substring of title or docket id.
  The results are then narrowed by case-insensitive equality on document type
  and on agency.
- **The page component** (`Frontend`, App.jsx). It models the agency list
  narrowed by the agency search box, the active-filter count, "clear", and the
  request a search sends (query, document type, first selected agency).
- **The sidebar** (`Sidebar`, AdvancedSidebar.jsx).
  - The agency list follows the order in which the user last touched the
    agencies.
  - The CFR part list (1 to 200) is narrowed by a query matcher: the query's
    digits are matched as a substring. When the query has no digits, the query
    text is matched against `N`, `part N` or `cfr part N`.
  - Without a search, both lists are cut to `max(5, selected)` items.
  - The checkbox handlers toggle a selection and move the item to the top.

Shared modules:

- `Text` has ASCII case folding and trimming, substring search, digit
  extraction and decimal rendering with its parser.
- `Seqs` has subsequences, order-keeping removal, move-to-front, JavaScript
  `Set` toggling and first-occurrence de-duplication.

A JavaScript `Set` iterates in insertion order, so it is modelled as a
sequence without duplicates.

Some notable properties are proved:

- The pages from 1 to `total_pages` put back together give the whole result
  list (`PagesReassemble`).
- Each paging header parses back to the value it renders
  (`PaginationHeadersRoundTrip`).
- The loop in `SearchDockets` computes exactly the grouping function
  `GroupRows`. That function's result is characterised per docket, per title,
  per part and per link.
- The mock's filters commute and compose.
- Typing more into the agency box never brings an agency back.
- A toggled agency or CFR part lands on top of its list.

One behaviour is exhibited rather than assumed. The sidebar's truncation keeps
the first `max(5, selected)` agencies of the order, not the selected ones. So
after deselecting the top agency out of six, a still-selected agency can drop
out of view (`SelectedAgencyCanBeHidden`).

A few details of the code that the model keeps as they are:

- app.py:10 replaces only a missing or empty term with `example_query`; a
  term of only whitespace is searched for as it is.
- tests/mock_db.py:41-44 matches the term against the title and the docket id
  only.
- tests/mock_db.py:50-54 filters agency by case-insensitive equality.
- `MockDBLayer.search` takes no CFR part argument.
- Neither store alters the term beyond trimming and lower-casing it.

## Model

| member | source | states |
|---|---|---|
| SearchLogic.Paginate | src/mirrsearch/internal_logic.py:37-59 | page and page size echoed, total = number of results, total pages = the ceiling formula, has_prev iff page > 1, has_next iff page < total pages, never more than page-size results |
| SearchLogic.Search | src/mirrsearch/internal_logic.py:30-59 | the store is called once with query and the three filters in order; the total counts the store's results, total pages is the ceiling formula, has_next iff page < total pages, has_prev iff page > 1, at most page-size results; for page ≥ 1 the results are the slice from (page-1)·page_size, cut short by the end of the list |
| SearchLogic.TotalPagesIsCeiling | src/mirrsearch/internal_logic.py:39 | total pages is the least number of pages holding every result; it is 0 exactly when there are no results |
| SearchLogic.PageContents | src/mirrsearch/internal_logic.py:42-46 | a page ≥ 1 holds the results from (page-1)·page_size on, min(page_size, remaining) of them |
| SearchLogic.PastLastPageIsEmpty | src/mirrsearch/internal_logic.py:46-56 | a page past the last is empty, has no next page and is not an error |
| SearchLogic.PagesInRangeAreFilled | src/mirrsearch/internal_logic.py:39-46 | every page from 1 to the last is non-empty and every page before the last is full |
| SearchLogic.PagesThroughIsPrefix | src/mirrsearch/internal_logic.py:42-46 | pages 1 to k concatenated are the first k·page_size results |
| SearchLogic.PagesReassemble | src/mirrsearch/internal_logic.py:39-46 | pages 1 to total pages concatenated give back the whole result list, with no gap or overlap |
| SearchLogic.TwentyFiveResults | src/mirrsearch/internal_logic.py:37-57 | 25 results at 10 per page: 3 pages, page 1 full with a next page, page 3 holds 5 with no next page, page 999 empty |
| Seqs.Slice | src/mirrsearch/internal_logic.py:46 | Python slicing never fails: for non-negative bounds it is the plain slice with both bounds clamped to the length (so a start past the end gives the empty list and an end past it gives the tail), never longer than the list |
| Seqs.SliceNegative | src/mirrsearch/internal_logic.py:46 | a negative bound counts from the end, clamped at the start, as Python's slice normalisation does |
| FlaskApp.GetSearchParams | src/mirrsearch/app.py:7-14 | a missing or empty `str` becomes `example_query`, any other is kept, so the term is never empty; filters pass through unchanged |
| FlaskApp.GetPaginationParams | src/mirrsearch/app.py:17-23 | page = max(page or 1, 1); a page size outside 1..100 (or missing) becomes 10, else is kept |
| FlaskApp.PaginationDefaults | src/mirrsearch/app.py:17-23 | page 0 → 1, page size 999 → 10, page size 5 kept, page 999 kept |
| FlaskApp.BlankTermIsKept | src/mirrsearch/app.py:10 | a term of spaces is truthy and is searched for as it is |
| FlaskApp.BoolHeader | src/mirrsearch/app.py:33-34 | `str(b).lower()` is "true" exactly for true and "false" exactly for false |
| FlaskApp.PaginationHeaders | src/mirrsearch/app.py:29-34 | exactly the six `X-…` headers are written |
| FlaskApp.PaginationHeadersRoundTrip | src/mirrsearch/app.py:29-34 | each numeric header parses back to its metadata field; each boolean header is "true"/"false" and is "true" iff the flag holds |
| Text.IntToStringRoundTrip | src/mirrsearch/app.py:29-32 | decimal rendering of any integer parses back to the integer |
| FlaskApp.Response.Jsonify | src/mirrsearch/app.py:28 | the body is the list and the only header is the JSON content type |
| FlaskApp.BuildPaginatedResponse | src/mirrsearch/app.py:26-35 | a new response whose body is the page list and whose headers are the JSON header plus the six paging headers |
| FlaskApp.HandleSearch | src/mirrsearch/app.py:52-67 | the response body is the requested slice of what the store returns for the normalised arguments, and its headers describe that page |
| Db.TermParams | src/mirrsearch/db.py:50-52 | both term parameters are `%` + trimmed lower-cased term + `%`; the blank branch's `%%` is the same value |
| Db.DocumentsQueryParams | src/mirrsearch/db.py:50-65 | the parameters are the two term patterns, then the document type if given, then `%agency%` if given, and nothing else |
| Db.DocumentsQueryClauses | src/mirrsearch/db.py:44-67 | the query starts with the SELECT; the type clause is present iff a type is given and then sits right after the SELECT; the agency clause is present iff an agency is given and then sits right before the limit; nothing else is added, so the clauses meet the parameters in order; `LIMIT 50` comes last and only there |
| Db.BuildDocumentsQuery | src/mirrsearch/db.py:44-67 | the text and parameters built by appending step by step equal the query function |
| Db.CfrPartIgnored | src/mirrsearch/db.py:58-61 | the CFR part argument never changes the query |
| Db.ToDocuments | src/mirrsearch/db.py:71-80 | one record per fetched row, in row order, each field from its column position |
| Db.Search | src/mirrsearch/db.py:26-35 | without a connection the result is empty; with one it has one record per row returned for the built query, all five fields (docket id, title, CFR part, agency id, type) taken by column position |
| Db.UnconnectedEngineFindsNothing | src/mirrsearch/db.py:33-34 | the engine over an unconnected store reports no results, 0 results, 0 pages, and a next page only for a negative page number |
| Db.AddCfrPart | src/mirrsearch/db.py:126-135 | a title is added with the row's link and an existing one is never relinked; the title's parts gain the part and nothing else; the docket's own fields and other titles are unchanged |
| Db.AddCfrPartOrder | src/mirrsearch/db.py:126-135 | a new title is appended at the end of the titles, and a new part at the end of its title's parts; a known title or part leaves its list as it was |
| Db.ProcessDocketRow | src/mirrsearch/db.py:114-135 | the dictionary gains the row's docket id; other dockets are unchanged; every listed id keeps an entry and every listed title a reference |
| Db.GroupRows | src/mirrsearch/db.py:106-108 | the dictionary after processing every row keeps every listed id and title backed by an entry |
| Db.StepValid | src/mirrsearch/db.py:115-125 | one row keeps the dictionary well formed: ids once in order, each entry under its own id, titles once |
| Db.AddCfrPartValid | src/mirrsearch/db.py:127-135 | adding a reference keeps titles and parts free of duplicates and every title backed |
| Db.GroupRowsValid | src/mirrsearch/db.py:106-108 | grouping any rows yields a well-formed dictionary |
| Db.GroupRowsKeys | src/mirrsearch/db.py:116-125 | a docket is in the result exactly when some row carries its id |
| Db.GroupRowsOrder | src/mirrsearch/db.py:106-111 | dockets come out in the order of their first row |
| Db.GroupRowsHeader | src/mirrsearch/db.py:117-125 | a docket's title, agency, type and date come from the first row carrying its id |
| Db.StepRefs | src/mirrsearch/db.py:127-133 | one row adds its title to its docket when title and part are both non-null, and changes no other title set |
| Db.StepParts | src/mirrsearch/db.py:134-135 | one row adds its part to its docket's title when both are non-null, and nothing else |
| Db.StepLink | src/mirrsearch/db.py:128-133 | one row sets a title's link only when it creates the title |
| Db.GroupRowsRefs | src/mirrsearch/db.py:126-133 | a docket lists a CFR title exactly when one of its rows names that title with a non-null part |
| Db.GroupRowsParts | src/mirrsearch/db.py:134-135 | a docket's title lists a part exactly when one of its rows names that part of that title |
| Db.TitleStep | src/mirrsearch/db.py:126-133 | one row appends its title to its docket's titles exactly when the title is new there, and leaves every other docket's titles alone |
| Db.PartStep | src/mirrsearch/db.py:134-135 | one row appends its part to its title's parts exactly when the part is new there, and leaves every other title's parts alone |
| Db.GroupRowsTitleOrder | src/mirrsearch/db.py:114-135 | a docket's titles are the titles its rows name with a part, each once, in the order of first mention (a docket not present has none) |
| Db.GroupRowsPartOrder | src/mirrsearch/db.py:114-135 | a title's parts are the parts its docket's rows name under it, each once, in the order of first mention |
| Db.GroupRowsLink | src/mirrsearch/db.py:128-133 | a title's link is the link of the first row of that docket naming the title with a part |
| Db.Summarize | src/mirrsearch/db.py:110 | a docket's fields are kept and its references become a list in title order |
| Db.Flatten | src/mirrsearch/db.py:109-112 | one summary per docket, in dictionary order |
| Db.DocketTable.constructor | src/mirrsearch/db.py:106 | the dictionary starts empty |
| Db.DocketTable.ProcessRow | src/mirrsearch/db.py:114-135 | updating the dictionary in place gives exactly the row-processing function's result |
| Db.SearchDockets | src/mirrsearch/db.py:102-112 | the loop over the fetched rows returns the flattened grouping of all of them |
| MockDb.Items | tests/mock_db.py:10-36 | two records, both of docket CMS-2025-0240, agency CMS, type "Proposed Rule" |
| MockDb.Keep | tests/mock_db.py:41-54 | a kept record is one of the input that meets every criterion, and the input order is kept |
| MockDb.SearchIn | tests/mock_db.py:38-55 | a record is returned iff its title or docket id contains the trimmed lower-cased term, its type equals a given type and its agency equals a given agency, ignoring case |
| MockDb.CriteriaMeaning | tests/mock_db.py:40-54 | the three list comprehensions together test exactly the term, type and agency conditions |
| MockDb.KeepKeep | tests/mock_db.py:41-54 | filtering by one list of criteria and then another equals filtering once by both |
| MockDb.SearchIsOneFilter | tests/mock_db.py:41-54 | the three successive filters equal one filter by all criteria, and keep the fixture order |
| MockDb.FiltersCommute | tests/mock_db.py:45-54 | applying the agency filter before the type filter gives the same result |
| MockDb.BlankQueryKeepsAll | tests/mock_db.py:40-44 | a missing or whitespace-only term without filters returns every record |
| MockDb.SearchIgnoresCase | tests/mock_db.py:40-54 | arguments that agree up to letter case give the same result |
| MockDb.SearchIgnoresPadding | tests/mock_db.py:40 | whitespace around the term does not change the result |
| MockDb.FinalRuleMatchesNothing | tests/mock_db.py:45-49 | the type filter "Final Rule" returns nothing, whatever the term |
| MockDb.AgencyFilterIsEquality | tests/mock_db.py:50-54 | agency "CMS" keeps both records, agency "CM" keeps none |
| MockDb.YearFindsBoth | tests/mock_db.py:41-44 | the term "2025" finds both records through the docket id |
| MockDb.GetAllIsUnfilteredSearch | tests/mock_db.py:58-60 | `get_all` equals a search with no term and no filters |
| Frontend.TopAgencies | frontend/src/App.jsx:20-27 | the codes are EPA, HHS, FDA, CMS, DOT, FCC in that order |
| Frontend.TopCodesDistinct | frontend/src/App.jsx:20-27 | no two listed agencies share a code |
| Frontend.FilterAgencies | frontend/src/App.jsx:32-36 | an agency is kept iff its lower-cased code or name contains the query, in the original order |
| Frontend.AgenciesToShow | frontend/src/App.jsx:29-38 | an empty search gives every agency in order; otherwise exactly the agencies matching the lower-cased, untrimmed search, as a subsequence with distinct codes |
| Frontend.AgencySearchNarrows | frontend/src/App.jsx:30-36 | extending the search text never adds an agency to the list |
| Text.ContainsLonger | frontend/src/App.jsx:34-35 | a string containing a longer query contains each prefix of it |
| Frontend.FirstAgency | frontend/src/App.jsx:47 | the agency sent is the first selected one, or "" when none is selected |
| Frontend.FirstAgencyIsEarliestSelected | frontend/src/App.jsx:47 | the first pick is sent; toggling any other agency keeps the agency sent; deselecting it hands over to the next selected |
| Frontend.App.constructor | frontend/src/App.jsx:9-18 | every text field empty, no results, no selections, advanced panel open |
| Frontend.App.ActiveCount | frontend/src/App.jsx:40-44 | one per year bound set plus the selected agencies and statuses; zero exactly when no year is set and nothing is selected |
| Frontend.App.ClearAdvanced | frontend/src/App.jsx:59-65 | years, agency search, agency and status selections emptied; query, type, results and panel kept; the active count becomes 0 |
| Frontend.App.RunSearch | frontend/src/App.jsx:46-50 | the results become the answer for (query, type, first selected agency); nothing else changes |
| Frontend.App.ToggleStatus | frontend/src/components/AdvancedSidebar.jsx:298-302 | the status is removed if present and added if absent; the set stays duplicate-free; the active count drops or rises by exactly one |
| Frontend.App.ToggleDocType | frontend/src/components/AdvancedSidebar.jsx:283 | choosing the current type clears it, choosing another selects it |
| Seqs.Toggle | frontend/src/components/AdvancedSidebar.jsx:76-84 | the item is in the new set iff it was not in the old one; other members are kept; the size changes by one |
| Seqs.ToggleTwice | frontend/src/components/AdvancedSidebar.jsx:125-133 | toggling twice restores the members, and the order too when the item was absent |
| Seqs.RemoveAll | frontend/src/components/AdvancedSidebar.jsx:135 | every element except the removed one, in order, as a subsequence |
| Seqs.MoveToFront | frontend/src/components/AdvancedSidebar.jsx:135 | the item first, then the other elements in their old order; duplicate-freedom kept |
| Seqs.MoveToFrontOnce | frontend/src/components/AdvancedSidebar.jsx:135 | the moved item occurs exactly once |
| Seqs.MoveToFrontPermutes | frontend/src/components/AdvancedSidebar.jsx:135 | moving a listed item of a duplicate-free order is a permutation |
| Seqs.MoveToFrontIdempotent | frontend/src/components/AdvancedSidebar.jsx:88 | moving the same item to the front twice equals once |
| Sidebar.InitialCfrOrderParts | frontend/src/components/AdvancedSidebar.jsx:53-55 | the initial CFR order is 1..200 ascending, each part once |
| Sidebar.Find | frontend/src/components/AdvancedSidebar.jsx:62 | a found agency is shown and has the code; nothing is found iff no shown agency has it |
| Sidebar.FindOwnCode | frontend/src/components/AdvancedSidebar.jsx:62 | with distinct codes, an agency's code finds that agency |
| Sidebar.KnownCodes | frontend/src/components/AdvancedSidebar.jsx:61-63 | the codes of the order that some shown agency carries, as a subsequence of the order, without repeats when the order has none |
| Sidebar.LookUp | frontend/src/components/AdvancedSidebar.jsx:61-63 | the codes of the result are exactly the order's known codes, in the order's order (so one agency per code of a duplicate-free order); only shown agencies come out |
| Sidebar.OrderedAgenciesMembers | frontend/src/components/AdvancedSidebar.jsx:57-64 | the ordered list holds only shown agencies, and one for every shown agency whose code is in the order |
| Sidebar.OrderedAgenciesStartAsShown | frontend/src/components/AdvancedSidebar.jsx:58-63 | before any toggle the ordered list is the shown list itself |
| Sidebar.Visible | frontend/src/components/AdvancedSidebar.jsx:66-73 | a prefix of the list: all of it under a non-blank trimmed search, else max(5, selected) items, cut by the list's length |
| Sidebar.VisibleCoversSelection | frontend/src/components/AdvancedSidebar.jsx:115-122 | at least as many items are shown as are selected, and always the first five |
| Sidebar.ToggledAgencyOnTop | frontend/src/components/AdvancedSidebar.jsx:86-89 | after toggling a shown agency it heads the ordered list and is visible, whatever the search |
| Sidebar.SelectedAgencyCanBeHidden | frontend/src/components/AdvancedSidebar.jsx:66-73 | with six agencies all selected first to last, deselecting the top one leaves the earliest still-selected agency off the visible list |
| Sidebar.FilterParts | frontend/src/components/AdvancedSidebar.jsx:100-112 | a part is kept iff it matches, as a subsequence of the order |
| Sidebar.FilteredCfrParts | frontend/src/components/AdvancedSidebar.jsx:92-113 | a subsequence of the order; under a non-blank query, a part is kept iff its number contains the query's digits, or, without digits, `N`, `part N` or `cfr part N` contains the query |
| Sidebar.BlankCfrSearchKeepsOrder | frontend/src/components/AdvancedSidebar.jsx:93-96 | a whitespace-only search returns the order unchanged |
| Sidebar.SameDigitsSameParts | frontend/src/components/AdvancedSidebar.jsx:98-104 | two searches with the same non-empty digits find the same parts |
| Text.Digits | frontend/src/components/AdvancedSidebar.jsx:98 | only digits come out, never more characters than went in, and a string of digits comes out whole |
| Text.DigitsExtracts | frontend/src/components/AdvancedSidebar.jsx:98 | the result is a subsequence of the input holding every digit of the input as often as the input does |
| Sidebar.PartNumberFindsPart | frontend/src/components/AdvancedSidebar.jsx:100-104 | searching a listed part's own number finds it |
| Sidebar.WordPartKeepsAll | frontend/src/components/AdvancedSidebar.jsx:107-111 | the query "Part" has no digit and matches every `part N`, so it keeps the whole order |
| Sidebar.ToggledPartOnTop | frontend/src/components/AdvancedSidebar.jsx:115-135 | with a blank search a toggled part heads the visible list |
| Sidebar.AdvancedSidebar.constructor | frontend/src/components/AdvancedSidebar.jsx:52-55 | no agency order, empty CFR search, CFR order 1..200 |
| Sidebar.AdvancedSidebar.ToggleAgency | frontend/src/components/AdvancedSidebar.jsx:75-90 | the code is toggled in the page's selection and moved to the front of the order, which starts from the shown codes; the page's active count drops or rises by exactly one |
| Sidebar.AdvancedSidebar.ToggleCfrPart | frontend/src/components/AdvancedSidebar.jsx:124-136 | the part is toggled in the selection and moved to the front of the order, which stays a permutation |
| Text.TrimPadded | tests/mock_db.py:40 | whitespace around a string does not change what it trims to |
| Text.TrimLowerCommute | src/mirrsearch/db.py:50 | trimming and lower-casing commute |

## Left out

- Flask routing, `create_app`'s static directory and the `/` route, and JSON
  serialisation are left out. The body is the list itself. Query arguments
  arrive already parsed: `page` and `page_size` are `None` when missing or not
  an integer, and the model then applies the default, as
  `args.get(..., default=..., type=int)` does.
- Database connections are left out: configuration, AWS secrets,
  `psycopg2`, `get_db`, and the OpenSearch client.
- SQL is not evaluated. `ILIKE`, `SELECT DISTINCT`, `ORDER BY` and `LIMIT 50`
  act inside the database. The model records the query's fragments and
  parameters, and takes the connection's answer as a function of the query.
- Case folding and whitespace are ASCII only, and one whitespace set (space,
  tab, line feed, vertical tab, form feed, carriage return) serves both
  languages. Python's `lower`/`strip` and JavaScript's `toLowerCase`/`trim`
  also act on non-ASCII letters and spaces. Python's `strip` also removes the
  ASCII separators `\x1c`-`\x1f`, which JavaScript's `trim` keeps. So for a
  term `"\x1c"` db.py:50 sends `%%`, while `Db.TermParams` gives `%\x1c%`.
- `MockDBLayer.search` takes three arguments while `InternalLogic.search`
  passes four, so the mock cannot serve as the engine's store. It is modelled
  on its own.
- The page sends `docket_type` where the back end reads `document_type`.
  That is wiring between front end and back end, outside this model.
- App.jsx does not hand `selectedCfrParts` to the sidebar. The sidebar
  component reads `.size` of it, and so fails at run time. The model gives the
  sidebar its own CFR selection, starting empty.
- The year fields, the date chips, the agency and CFR search boxes and the
  panel toggle are plain assignments to one field. They are not separate
  methods.
- `advancedPayload` is only shown: ResultsPanel.jsx prints it as JSON. It is
  never sent with a search.
- The hint texts, `CollapsibleSection`, animation and the components
  SearchBar.jsx and ResultsPanel.jsx are rendering only.
- `frontend/src/api/searchApi.js` (the fetch) is a parameter of `RunSearch`.
- Frontend.App.RunSearch: runs as one atomic step whose fetch always answers.
  The source awaits the fetch, so edits to the form can interleave with it.
  When the response is not OK, `searchDockets` throws, `results` keep their
  old value and the rejection goes unhandled. Neither the interleaving nor the
  failure is modelled.
- db/ingest_docket.py and src/mirrsearch/test_browser.py are not part of this
  model.
- Db.AddCfrPart: its contract states what each list holds; the order it
  appends in is stated by `Db.AddCfrPartOrder`, and for the whole grouping by
  `Db.GroupRowsTitleOrder` and `Db.GroupRowsPartOrder`.
- Db.SearchDockets: requires a connection. Without one, the source fails
  calling `cursor()` on `None`, and that failure is not modelled.
- SearchLogic.Paginate: requires a page size of at least 1, as its only caller
  ensures. A page size of 0 makes the source divide by zero. A negative one
  gives a meaningless page count.
- SearchLogic.Search: the slice contents are stated for pages ≥ 1 only, the
  only pages the route sends. For a page ≤ 0 the model follows Python slicing
  with negative indices but states only the metadata. On an empty store such a
  page reports `has_next` when it is negative (`UnconnectedEngineFindsNothing`).
