/**
 * The relational store of src/mirrsearch/db.py: the document search builds a
 * parameterised query clause by clause and maps the fetched rows to records
 * by position; the docket search groups joined rows by docket, collecting
 * CFR references per title.
 *
 * SQL evaluation is not modelled: a connection is the function from a built
 * query to the rows the database returns for it.
 */
module Db {
  import opened Wrappers
  import opened Text
  import opened Seqs
  import SearchLogic

  /** A column value as the driver returns it: SQL NULL or text. */
  datatype Value = Null | Str(s: string)

  /** The pieces of SQL text `_search_postgres` and `_search_dockets_postgres` put together. */
  datatype Fragment =
    | SelectDocuments        // documents whose docket id or title ILIKE the two term parameters
    | AndDocumentTypeEquals  // " AND d.document_type = %s"
    | AndAgencyILike         // " AND d.agency_id ILIKE %s"
    | SelectDockets          // dockets joined to documents, CFR parts and links, title ILIKE one parameter, ordered
    | Limit(rows: nat)       // " LIMIT n"

  /** SQL text (as its fragments) and its parameter list. */
  datatype SqlQuery = SqlQuery(fragments: seq<Fragment>, params: seq<string>)

  const RowLimit: nat := 50

  /** `d.docket_id, d.document_title, NULL AS cfrpart, d.agency_id, d.document_type`. */
  type DocumentRow = (Value, Value, Value, Value, Value)

  /** The record dictionary built from one document row. */
  datatype Document = Document(docketId: Value, title: Value, cfrPart: Value, agencyId: Value, documentType: Value)

  /** `d.docket_id, d.docket_title, d.agency_id, d.docket_type, d.modify_date, cp.title, cp.cfrPart, l.link`. */
  type DocketRow = (Value, Value, Value, Value, Value, Value, Value, Value)

  /** What a database connection returns for a query, by the shape of its rows. */
  datatype Connection = Connection(
    documentRows: SqlQuery -> seq<DocumentRow>,
    docketRows: SqlQuery -> seq<DocketRow>)

  /** `DBLayer(conn=None)` is the default. */
  datatype DBLayer = DBLayer(conn: Option<Connection>)

  /** `f"%{(query or '').strip().lower()}%"`. */
  function TermPattern(query: Option<string>): string {
    "%" + Lower(Trim(query.GetOr(""))) + "%"
  }

  /** The two parameters of the term clause. */
  function TermParams(query: Option<string>): (params: seq<string>)
    ensures params == [TermPattern(query), TermPattern(query)]
  {
    if Trim(query.GetOr("")) != "" then [TermPattern(query), TermPattern(query)]
    else
      assert Lower(Trim(query.GetOr(""))) == [];
      assert TermPattern(query) == "%" + [] + "%" == "%%";
      ["%%", "%%"]
  }

  /**
   * The query `_search_postgres` runs. The CFR part argument is accepted and
   * ignored: its clause is commented out in the source.
   */
  function DocumentsQuery(query: Option<string>, documentType: Option<string>, agency: Option<string>,
                          cfrPart: Option<string>): SqlQuery
  {
    SqlQuery([SelectDocuments] + TypeClause(documentType) + AgencyClause(agency) + [Limit(RowLimit)],
             TermParams(query) + TypeParam(documentType) + AgencyParam(agency))
  }

  function TypeClause(documentType: Option<string>): seq<Fragment> {
    if Present(documentType) then [AndDocumentTypeEquals] else []
  }

  function TypeParam(documentType: Option<string>): seq<string> {
    if Present(documentType) then [documentType.value] else []
  }

  function AgencyClause(agency: Option<string>): seq<Fragment> {
    if Present(agency) then [AndAgencyILike] else []
  }

  function AgencyParam(agency: Option<string>): seq<string> {
    if Present(agency) then ["%" + agency.value + "%"] else []
  }

  /** The parameter list: both term patterns, then the type if given, then the agency pattern if given. */
  lemma DocumentsQueryParams(query: Option<string>, documentType: Option<string>, agency: Option<string>,
                             cfrPart: Option<string>)
    ensures var q := DocumentsQuery(query, documentType, agency, cfrPart);
      && |q.params| == 2 + (if Present(documentType) then 1 else 0) + (if Present(agency) then 1 else 0)
      && q.params[0] == TermPattern(query) && q.params[1] == TermPattern(query)
      && (Present(documentType) ==> q.params[2] == documentType.value)
      && (Present(agency) ==> q.params[|q.params| - 1] == "%" + agency.value + "%")
  {
    var q := DocumentsQuery(query, documentType, agency, cfrPart);
    var term, byType, byAgency := TermParams(query), TypeParam(documentType), AgencyParam(agency);
    assert q.params == term + byType + byAgency;
    assert |term| == 2 && |byType| == (if Present(documentType) then 1 else 0);
    assert |byAgency| == (if Present(agency) then 1 else 0);
    assert q.params[0] == term[0] && q.params[1] == term[1];
    if Present(documentType) {
      var front := term + byType;
      assert front[2] == byType[0];
      assert q.params == front + byAgency;
      assert q.params[2] == front[2];
    }
    if Present(agency) {
      assert q.params[|q.params| - 1] == byAgency[0];
    }
  }

  /**
   * A filter clause is present exactly when its argument is given, once, the
   * type clause right after the select and the agency clause right before the
   * row limit, so the k-th placeholder meets the k-th parameter.
   */
  lemma DocumentsQueryClauses(query: Option<string>, documentType: Option<string>, agency: Option<string>,
                              cfrPart: Option<string>)
    ensures var q := DocumentsQuery(query, documentType, agency, cfrPart);
      && (AndDocumentTypeEquals in q.fragments <==> Present(documentType))
      && (AndAgencyILike in q.fragments <==> Present(agency))
      && q.fragments[0] == SelectDocuments && q.fragments[|q.fragments| - 1] == Limit(RowLimit)
      && Limit(RowLimit) !in q.fragments[..|q.fragments| - 1]
      && |q.fragments| == 2 + (if Present(documentType) then 1 else 0) + (if Present(agency) then 1 else 0)
      && (Present(documentType) ==> q.fragments[1] == AndDocumentTypeEquals)
      && (Present(agency) ==> q.fragments[|q.fragments| - 2] == AndAgencyILike)
  {
    var q := DocumentsQuery(query, documentType, agency, cfrPart);
    assert q.fragments[..|q.fragments| - 1] == [SelectDocuments] + TypeClause(documentType) + AgencyClause(agency);
  }

  /** `_search_postgres` up to `cur.execute`: the SQL text and parameter list built step by step. */
  method BuildDocumentsQuery(query: Option<string>, documentType: Option<string>, agency: Option<string>,
                             cfrPart: Option<string>) returns (q: SqlQuery)
    ensures q == DocumentsQuery(query, documentType, agency, cfrPart)
  {
    var sql := [SelectDocuments];
    var params := if Trim(query.GetOr("")) != "" then [TermPattern(query), TermPattern(query)] else ["%%", "%%"];
    assert params == TermParams(query);
    if Present(documentType) {
      sql := sql + [AndDocumentTypeEquals];
      params := params + [documentType.value];
    }
    assert sql == [SelectDocuments] + TypeClause(documentType);
    assert params == TermParams(query) + TypeParam(documentType);
    if Present(agency) {
      sql := sql + [AndAgencyILike];
      params := params + ["%" + agency.value + "%"];
    }
    assert sql == [SelectDocuments] + TypeClause(documentType) + AgencyClause(agency);
    assert params == TermParams(query) + TypeParam(documentType) + AgencyParam(agency);
    sql := sql + [Limit(RowLimit)];
    q := SqlQuery(sql, params);
  }

  /** The CFR part argument never changes the query. */
  lemma CfrPartIgnored(query: Option<string>, documentType: Option<string>, agency: Option<string>,
                       cfrPart1: Option<string>, cfrPart2: Option<string>)
    ensures DocumentsQuery(query, documentType, agency, cfrPart1) == DocumentsQuery(query, documentType, agency, cfrPart2)
  {
  }

  /** The list comprehension over `cur.fetchall()`: one record per row, by column position. */
  function ToDocuments(rows: seq<DocumentRow>): (docs: seq<Document>)
    ensures |docs| == |rows|
    ensures forall i :: 0 <= i < |rows| ==>
      docs[i] == Document(rows[i].0, rows[i].1, rows[i].2, rows[i].3, rows[i].4)
  {
    if rows == [] then []
    else [Document(rows[0].0, rows[0].1, rows[0].2, rows[0].3, rows[0].4)] + ToDocuments(rows[1..])
  }

  /** `DBLayer.search`: no results without a connection, otherwise the rows fetched for the built query. */
  function Search(layer: DBLayer, query: Option<string>, documentType: Option<string>, agency: Option<string>,
                  cfrPart: Option<string>): (docs: seq<Document>)
    ensures layer.conn.None? ==> docs == []
    ensures layer.conn.Some? ==>
      var rows := layer.conn.value.documentRows(DocumentsQuery(query, documentType, agency, cfrPart));
      |docs| == |rows| && forall i :: 0 <= i < |rows| ==>
        docs[i] == Document(rows[i].0, rows[i].1, rows[i].2, rows[i].3, rows[i].4)
  {
    if layer.conn.None? then []
    else ToDocuments(layer.conn.value.documentRows(DocumentsQuery(query, documentType, agency, cfrPart)))
  }

  /** The store as the search engine sees it. */
  function AsStore(layer: DBLayer): SearchLogic.StoreRequest -> seq<Document> {
    (req: SearchLogic.StoreRequest) => Search(layer, req.query, req.documentType, req.agency, req.cfrPart)
  }

  /**
   * The engine over a store without a connection: no results and no pages
   * for every argument; a next page is announced only for a negative page number.
   */
  lemma UnconnectedEngineFindsNothing(query: Option<string>, documentType: Option<string>, agency: Option<string>,
                                      cfrPart: Option<string>, page: int, pageSize: int)
    requires pageSize >= 1
    ensures var r := SearchLogic.Search(SearchLogic.InternalLogic("sample_database", AsStore(DBLayer(None))),
                                         query, documentType, agency, cfrPart, page, pageSize);
      && r.results == [] && r.pagination.totalResults == 0 && r.pagination.totalPages == 0
      && (r.pagination.hasNext <==> page < 0)
  {
    var logic := SearchLogic.InternalLogic("sample_database", AsStore(DBLayer(None)));
    var req := SearchLogic.StoreRequest(query, documentType, agency, cfrPart);
    assert logic.dbLayer(req) == [];
    assert SearchLogic.Search(logic, query, documentType, agency, cfrPart, page, pageSize)
        == SearchLogic.Paginate([], page, pageSize);
    SearchLogic.TotalPagesIsCeiling(0, pageSize);
  }

  // ---------------------------------------------------------------------------
  // Docket search: grouping joined rows by docket.

  /** One entry of a docket's `cfr_refs`. */
  datatype CfrRef = CfrRef(title: string, cfrParts: seq<string>, link: Value)

  /**
   * One entry of the `dockets` dictionary. `cfrRefs` is the `cfr_refs`
   * dictionary and `titles` its keys in insertion order.
   */
  datatype Docket = Docket(
    docketId: Value, docketTitle: Value, agencyId: Value, docketType: Value, modifyDate: Value,
    cfrRefs: map<string, CfrRef>, titles: seq<string>)

  /** The `dockets` dictionary: entries by docket id, and the ids in insertion order. */
  datatype DocketIndex = DocketIndex(dockets: map<Value, Docket>, order: seq<Value>)

  /** The five docket fields of a row, and the same fields of an entry. */
  function RowHeader(row: DocketRow): (Value, Value, Value, Value, Value) {
    (row.0, row.1, row.2, row.3, row.4)
  }

  function Header(d: Docket): (Value, Value, Value, Value, Value) {
    (d.docketId, d.docketTitle, d.agencyId, d.docketType, d.modifyDate)
  }

  ghost predicate DocketValid(d: Docket) {
    && NoDuplicates(d.titles)
    && (forall t :: t in d.cfrRefs <==> t in d.titles)
    && (forall t :: t in d.cfrRefs ==> d.cfrRefs[t].title == t && NoDuplicates(d.cfrRefs[t].cfrParts))
  }

  /** Insertion order lists each key once, and every entry sits under its own id. */
  ghost predicate IndexValid(idx: DocketIndex) {
    && NoDuplicates(idx.order)
    && (forall id :: id in idx.dockets <==> id in idx.order)
    && (forall id :: id in idx.dockets ==> idx.dockets[id].docketId == id && DocketValid(idx.dockets[id]))
  }

  /** Every id in the order has an entry, and every title in an entry's order has a reference. */
  predicate Listed(idx: DocketIndex) {
    forall id :: id in idx.order ==>
      id in idx.dockets && forall t :: t in idx.dockets[id].titles ==> t in idx.dockets[id].cfrRefs
  }

  /** Records that `part` belongs to `title`, creating the title's entry with `link` if it is new. */
  function AddCfrPart(d: Docket, title: string, part: string, link: Value): (r: Docket)
    ensures Header(r) == Header(d)
    ensures forall t :: t in r.titles ==> t in d.titles || t == title
    ensures (forall t :: t in d.titles ==> t in d.cfrRefs) ==> forall t :: t in r.titles ==> t in r.cfrRefs
    ensures forall t :: t in r.cfrRefs <==> t in d.cfrRefs || t == title
    ensures forall t :: t in d.cfrRefs && t != title ==> r.cfrRefs[t] == d.cfrRefs[t]
    ensures r.cfrRefs[title].link == (if title in d.cfrRefs then d.cfrRefs[title].link else link)
    ensures forall q :: q in r.cfrRefs[title].cfrParts <==>
      q == part || (title in d.cfrRefs && q in d.cfrRefs[title].cfrParts)
  {
    var d1 := if title in d.cfrRefs then d
              else d.(cfrRefs := d.cfrRefs[title := CfrRef(title, [], link)], titles := d.titles + [title]);
    var ref := d1.cfrRefs[title];
    if part in ref.cfrParts then d1
    else d1.(cfrRefs := d1.cfrRefs[title := ref.(cfrParts := ref.cfrParts + [part])])
  }

  /** A new title goes at the end of the titles, and a new part at the end of its title's parts. */
  lemma AddCfrPartOrder(d: Docket, title: string, part: string, link: Value)
    ensures AddCfrPart(d, title, part, link).titles == if title in d.cfrRefs then d.titles else d.titles + [title]
    ensures var before := if title in d.cfrRefs then d.cfrRefs[title].cfrParts else [];
      AddCfrPart(d, title, part, link).cfrRefs[title].cfrParts == if part in before then before else before + [part]
  {
  }

  /** The entry for a docket seen for the first time: its fields from the row, no references yet. */
  function NewDocket(row: DocketRow): Docket {
    Docket(row.0, row.1, row.2, row.3, row.4, map[], [])
  }

  /** `_process_docket_row` as a function of the dictionary before and after. */
  function ProcessDocketRow(idx: DocketIndex, row: DocketRow): (r: DocketIndex)
    ensures Listed(idx) ==> Listed(r)
    ensures forall k :: k in r.dockets <==> k in idx.dockets || k == row.0
    ensures forall k :: k in idx.dockets && k != row.0 ==> r.dockets[k] == idx.dockets[k]
  {
    var id := row.0;
    var idx1 := if id in idx.dockets then idx
                else DocketIndex(idx.dockets[id := NewDocket(row)], idx.order + [id]);
    if row.5.Str? && row.6.Str? then
      idx1.(dockets := idx1.dockets[id := AddCfrPart(idx1.dockets[id], row.5.s, row.6.s, row.7)])
    else idx1
  }

  /** The dictionary after `_process_docket_row` has run on every row, in order. */
  function GroupRows(rows: seq<DocketRow>): (idx: DocketIndex)
    ensures Listed(idx)
  {
    if rows == [] then DocketIndex(map[], [])
    else ProcessDocketRow(GroupRows(rows[..|rows| - 1]), rows[|rows| - 1])
  }

  /** One row keeps the dictionary well formed. */
  lemma StepValid(idx: DocketIndex, row: DocketRow)
    requires IndexValid(idx)
    ensures IndexValid(ProcessDocketRow(idx, row))
  {
    var id := row.0;
    var idx1 := idx;
    if id !in idx.dockets {
      idx1 := DocketIndex(idx.dockets[id := NewDocket(row)], idx.order + [id]);
      NewDocketValid(idx, row);
    }
    if row.5.Str? && row.6.Str? {
      AddCfrPartValid(idx1.dockets[id], row.5.s, row.6.s, row.7);
      ReplaceDocketValid(idx1, id, AddCfrPart(idx1.dockets[id], row.5.s, row.6.s, row.7));
    }
  }

  lemma NewDocketValid(idx: DocketIndex, row: DocketRow)
    requires IndexValid(idx) && row.0 !in idx.dockets
    ensures IndexValid(DocketIndex(idx.dockets[row.0 := NewDocket(row)], idx.order + [row.0]))
  {
    AppendFresh(idx.order, row.0);
  }

  lemma ReplaceDocketValid(idx: DocketIndex, id: Value, d: Docket)
    requires IndexValid(idx) && id in idx.dockets && DocketValid(d) && d.docketId == id
    ensures IndexValid(idx.(dockets := idx.dockets[id := d]))
  {
  }

  lemma AddCfrPartValid(d: Docket, title: string, part: string, link: Value)
    requires DocketValid(d)
    ensures DocketValid(AddCfrPart(d, title, part, link))
    ensures AddCfrPart(d, title, part, link).docketId == d.docketId
  {
    var d1 := d;
    if title !in d.cfrRefs {
      AppendFresh(d.titles, title);
      d1 := d.(cfrRefs := d.cfrRefs[title := CfrRef(title, [], link)], titles := d.titles + [title]);
    }
    assert DocketValid(d1);
    var ref := d1.cfrRefs[title];
    if part !in ref.cfrParts {
      AppendFresh(ref.cfrParts, part);
      assert AddCfrPart(d, title, part, link) == d1.(cfrRefs := d1.cfrRefs[title := ref.(cfrParts := ref.cfrParts + [part])]);
    } else {
      assert AddCfrPart(d, title, part, link) == d1;
    }
  }

  /**
   * Grouping yields a well-formed dictionary: docket ids in first-seen order
   * without repeats, each entry under its own id, each title listed once
   * under its own name, and no part listed twice under a title.
   */
  lemma {:induction false} GroupRowsValid(rows: seq<DocketRow>)
    ensures IndexValid(GroupRows(rows))
  {
    if rows != [] {
      GroupRowsValid(rows[..|rows| - 1]);
      StepValid(GroupRows(rows[..|rows| - 1]), rows[|rows| - 1]);
    }
  }

  /** Some row carries docket `id`. */
  predicate HasDocket(rows: seq<DocketRow>, id: Value) {
    exists j :: 0 <= j < |rows| && rows[j].0 == id
  }

  /** Some row of docket `id` names CFR title `t` with a part. */
  predicate HasRef(rows: seq<DocketRow>, id: Value, t: string) {
    exists j :: 0 <= j < |rows| && rows[j].0 == id && rows[j].5 == Str(t) && rows[j].6.Str?
  }

  /** Some row of docket `id` names part `p` of CFR title `t`. */
  predicate HasPart(rows: seq<DocketRow>, id: Value, t: string, p: string) {
    exists j :: 0 <= j < |rows| && rows[j].0 == id && rows[j].5 == Str(t) && rows[j].6 == Str(p)
  }

  /** The docket ids of the rows, in row order. */
  function DocketIds(rows: seq<DocketRow>): (ids: seq<Value>)
    ensures |ids| == |rows| && forall j :: 0 <= j < |rows| ==> ids[j] == rows[j].0
  {
    seq(|rows|, j requires 0 <= j < |rows| => rows[j].0)
  }

  /** A docket is in the result exactly when some row carries its id. */
  lemma {:induction false} GroupRowsKeys(rows: seq<DocketRow>, id: Value)
    ensures id in GroupRows(rows).dockets <==> HasDocket(rows, id)
  {
    if rows != [] {
      var n := |rows| - 1;
      var pre := rows[..n];
      GroupRowsKeys(pre, id);
      if HasDocket(rows, id) && rows[n].0 != id {
        var j :| 0 <= j < |rows| && rows[j].0 == id;
        assert pre[j] == rows[j];
      }
      if HasDocket(pre, id) {
        var j :| 0 <= j < |pre| && pre[j].0 == id;
        assert rows[j] == pre[j];
      }
    }
  }

  /** Dockets come out in the order of their first row. */
  lemma {:induction false} GroupRowsOrder(rows: seq<DocketRow>)
    ensures GroupRows(rows).order == Distinct(DocketIds(rows))
  {
    if rows != [] {
      var n := |rows| - 1;
      var pre := rows[..n];
      GroupRowsOrder(pre);
      GroupRowsValid(pre);
      assert DocketIds(rows)[..n] == DocketIds(pre);
    }
  }

  /** A docket's own fields come from the first row that carries its id. */
  lemma {:induction false} GroupRowsHeader(rows: seq<DocketRow>, i: nat)
    requires i < |rows|
    requires forall j :: 0 <= j < i ==> rows[j].0 != rows[i].0
    ensures rows[i].0 in GroupRows(rows).dockets
    ensures Header(GroupRows(rows).dockets[rows[i].0]) == RowHeader(rows[i])
  {
    var n := |rows| - 1;
    var pre := rows[..n];
    var id := rows[i].0;
    if i == n {
      GroupRowsKeys(pre, id);
    } else {
      assert pre[i] == rows[i];
      GroupRowsHeader(pre, i);
    }
  }

  /** What one row does to a docket's titles. */
  lemma StepRefs(idx: DocketIndex, row: DocketRow, id: Value, t: string)
    requires id in ProcessDocketRow(idx, row).dockets
    ensures t in ProcessDocketRow(idx, row).dockets[id].cfrRefs <==>
      (id in idx.dockets && t in idx.dockets[id].cfrRefs) || (row.0 == id && row.5 == Str(t) && row.6.Str?)
  {
  }

  /** What one row does to the parts of a docket's title. */
  lemma StepParts(idx: DocketIndex, row: DocketRow, id: Value, t: string, p: string)
    requires id in ProcessDocketRow(idx, row).dockets && t in ProcessDocketRow(idx, row).dockets[id].cfrRefs
    ensures p in ProcessDocketRow(idx, row).dockets[id].cfrRefs[t].cfrParts <==>
      (id in idx.dockets && t in idx.dockets[id].cfrRefs && p in idx.dockets[id].cfrRefs[t].cfrParts)
      || (row.0 == id && row.5 == Str(t) && row.6 == Str(p))
  {
  }

  /** What one row does to the link of a docket's title: it is set only when the title is new. */
  lemma StepLink(idx: DocketIndex, row: DocketRow, id: Value, t: string)
    requires id in ProcessDocketRow(idx, row).dockets && t in ProcessDocketRow(idx, row).dockets[id].cfrRefs
    ensures ProcessDocketRow(idx, row).dockets[id].cfrRefs[t].link ==
      if id in idx.dockets && t in idx.dockets[id].cfrRefs then idx.dockets[id].cfrRefs[t].link else row.7
  {
  }

  lemma HasRefSnoc(rows: seq<DocketRow>, id: Value, t: string)
    requires rows != []
    ensures HasRef(rows, id, t) <==>
      (HasRef(rows[..|rows| - 1], id, t) || (rows[|rows| - 1].0 == id && rows[|rows| - 1].5 == Str(t) && rows[|rows| - 1].6.Str?))
    ensures HasRef(rows, id, t) ==> HasDocket(rows, id)
  {
    var n := |rows| - 1;
    var pre := rows[..n];
    if HasRef(rows, id, t) && !(rows[n].0 == id && rows[n].5 == Str(t) && rows[n].6.Str?) {
      var j :| 0 <= j < |rows| && rows[j].0 == id && rows[j].5 == Str(t) && rows[j].6.Str?;
      assert pre[j] == rows[j];
    }
    if HasRef(pre, id, t) {
      var j :| 0 <= j < |pre| && pre[j].0 == id && pre[j].5 == Str(t) && pre[j].6.Str?;
      assert rows[j] == pre[j];
    }
  }

  lemma HasPartSnoc(rows: seq<DocketRow>, id: Value, t: string, p: string)
    requires rows != []
    ensures HasPart(rows, id, t, p) <==>
      (HasPart(rows[..|rows| - 1], id, t, p) || (rows[|rows| - 1].0 == id && rows[|rows| - 1].5 == Str(t) && rows[|rows| - 1].6 == Str(p)))
    ensures HasPart(rows, id, t, p) ==> HasRef(rows, id, t)
  {
    var n := |rows| - 1;
    var pre := rows[..n];
    if HasPart(rows, id, t, p) && !(rows[n].0 == id && rows[n].5 == Str(t) && rows[n].6 == Str(p)) {
      var j :| 0 <= j < |rows| && rows[j].0 == id && rows[j].5 == Str(t) && rows[j].6 == Str(p);
      assert pre[j] == rows[j];
    }
    if HasPart(pre, id, t, p) {
      var j :| 0 <= j < |pre| && pre[j].0 == id && pre[j].5 == Str(t) && pre[j].6 == Str(p);
      assert rows[j] == pre[j];
    }
  }

  /** A docket lists a CFR title exactly when one of its rows names that title with a part. */
  lemma {:induction false} GroupRowsRefs(rows: seq<DocketRow>, id: Value, t: string)
    requires id in GroupRows(rows).dockets
    ensures t in GroupRows(rows).dockets[id].cfrRefs <==> HasRef(rows, id, t)
  {
    var n := |rows| - 1;
    var pre := rows[..n];
    GroupRowsKeys(pre, id);
    HasRefSnoc(rows, id, t);
    if n > 0 {
      HasRefSnoc(pre, id, t);
    }
    StepRefs(GroupRows(pre), rows[n], id, t);
    if id in GroupRows(pre).dockets {
      GroupRowsRefs(pre, id, t);
    }
  }

  /** A CFR title of a docket lists a part exactly when one of the docket's rows names that part of that title. */
  lemma {:induction false} GroupRowsParts(rows: seq<DocketRow>, id: Value, t: string, p: string)
    requires id in GroupRows(rows).dockets && t in GroupRows(rows).dockets[id].cfrRefs
    ensures p in GroupRows(rows).dockets[id].cfrRefs[t].cfrParts <==> HasPart(rows, id, t, p)
  {
    var n := |rows| - 1;
    var pre := rows[..n];
    GroupRowsKeys(pre, id);
    HasPartSnoc(rows, id, t, p);
    if n > 0 {
      HasPartSnoc(pre, id, t, p);
      HasRefSnoc(pre, id, t);
    }
    StepParts(GroupRows(pre), rows[n], id, t, p);
    if id in GroupRows(pre).dockets {
      GroupRowsRefs(pre, id, t);
      if t in GroupRows(pre).dockets[id].cfrRefs {
        GroupRowsParts(pre, id, t, p);
      }
    }
  }

  /** The titles that rows of docket `id` name with a part, in row order, repeats kept. */
  function RefTitles(rows: seq<DocketRow>, id: Value): seq<string> {
    if rows == [] then []
    else
      var last := rows[|rows| - 1];
      RefTitles(rows[..|rows| - 1], id) + if last.0 == id && last.5.Str? && last.6.Str? then [last.5.s] else []
  }

  /** The parts that rows of docket `id` name under title `t`, in row order, repeats kept. */
  function RowParts(rows: seq<DocketRow>, id: Value, t: string): seq<string> {
    if rows == [] then []
    else
      var last := rows[|rows| - 1];
      RowParts(rows[..|rows| - 1], id, t) + if last.0 == id && last.5 == Str(t) && last.6.Str? then [last.6.s] else []
  }

  /** A docket's titles in insertion order; none for a docket not in the dictionary. */
  function TitlesOf(idx: DocketIndex, id: Value): seq<string> {
    if id in idx.dockets then idx.dockets[id].titles else []
  }

  /** A title's parts in insertion order; none for a title or docket not in the dictionary. */
  function PartsOf(idx: DocketIndex, id: Value, t: string): seq<string> {
    if id in idx.dockets && t in idx.dockets[id].cfrRefs then idx.dockets[id].cfrRefs[t].cfrParts else []
  }

  /** One row appends its title to its docket's titles when the title is new, and changes no other titles. */
  lemma TitleStep(idx: DocketIndex, row: DocketRow, id: Value)
    requires IndexValid(idx)
    ensures TitlesOf(ProcessDocketRow(idx, row), id) ==
      if row.0 == id && row.5.Str? && row.6.Str? && row.5.s !in TitlesOf(idx, id)
      then TitlesOf(idx, id) + [row.5.s] else TitlesOf(idx, id)
  {
    if row.0 == id && row.5.Str? && row.6.Str? {
      var d := if id in idx.dockets then idx.dockets[id] else NewDocket(row);
      AddCfrPartOrder(d, row.5.s, row.6.s, row.7);
      if id in idx.dockets {
        assert row.5.s in idx.dockets[id].cfrRefs <==> row.5.s in TitlesOf(idx, id);
      }
    }
  }

  /** One row appends its part to its title's parts when the part is new, and changes no other parts. */
  lemma PartStep(idx: DocketIndex, row: DocketRow, id: Value, t: string)
    ensures PartsOf(ProcessDocketRow(idx, row), id, t) ==
      if row.0 == id && row.5 == Str(t) && row.6.Str? && row.6.s !in PartsOf(idx, id, t)
      then PartsOf(idx, id, t) + [row.6.s] else PartsOf(idx, id, t)
  {
    if row.0 == id && row.5.Str? && row.6.Str? {
      var d := if id in idx.dockets then idx.dockets[id] else NewDocket(row);
      assert ProcessDocketRow(idx, row).dockets[id] == AddCfrPart(d, row.5.s, row.6.s, row.7);
      AddCfrPartOrder(d, row.5.s, row.6.s, row.7);
    }
  }

  /**
   * A docket's titles are the titles its rows name with a part, each once,
   * in the order of first mention.
   */
  lemma {:induction false} GroupRowsTitleOrder(rows: seq<DocketRow>, id: Value)
    ensures TitlesOf(GroupRows(rows), id) == Distinct(RefTitles(rows, id))
  {
    if rows != [] {
      var n := |rows| - 1;
      var pre, last := rows[..n], rows[n];
      var g, before := GroupRows(pre), RefTitles(pre, id);
      assert GroupRows(rows) == ProcessDocketRow(g, last);
      GroupRowsTitleOrder(pre, id);
      GroupRowsValid(pre);
      TitleStep(g, last, id);
      var added := if last.0 == id && last.5.Str? && last.6.Str? then [last.5.s] else [];
      assert RefTitles(rows, id) == before + added;
      if added != [] {
        DistinctSnoc(before, last.5.s);
      } else {
        assert before + added == before;
      }
    }
  }

  /**
   * A title's parts are the parts the docket's rows name under it, each once,
   * in the order of first mention.
   */
  lemma {:induction false} GroupRowsPartOrder(rows: seq<DocketRow>, id: Value, t: string)
    ensures PartsOf(GroupRows(rows), id, t) == Distinct(RowParts(rows, id, t))
  {
    if rows != [] {
      var n := |rows| - 1;
      var pre, last := rows[..n], rows[n];
      var g, before := GroupRows(pre), RowParts(pre, id, t);
      assert GroupRows(rows) == ProcessDocketRow(g, last);
      GroupRowsPartOrder(pre, id, t);
      PartStep(g, last, id, t);
      var added := if last.0 == id && last.5 == Str(t) && last.6.Str? then [last.6.s] else [];
      assert RowParts(rows, id, t) == before + added;
      if added != [] {
        DistinctSnoc(before, last.6.s);
      } else {
        assert before + added == before;
      }
    }
  }

  /** A CFR title's link comes from the first row of the docket that names the title with a part. */
  lemma {:induction false} GroupRowsLink(rows: seq<DocketRow>, i: nat)
    requires i < |rows| && rows[i].5.Str? && rows[i].6.Str?
    requires forall j :: 0 <= j < i ==> !(rows[j].0 == rows[i].0 && rows[j].5 == rows[i].5 && rows[j].6.Str?)
    ensures rows[i].0 in GroupRows(rows).dockets
    ensures rows[i].5.s in GroupRows(rows).dockets[rows[i].0].cfrRefs
    ensures GroupRows(rows).dockets[rows[i].0].cfrRefs[rows[i].5.s].link == rows[i].7
  {
    var n := |rows| - 1;
    var pre := rows[..n];
    var id, t := rows[i].0, rows[i].5.s;
    if i == n {
      GroupRowsKeys(pre, id);
      if id in GroupRows(pre).dockets {
        GroupRowsRefs(pre, id, t);
      }
    } else {
      assert pre[i] == rows[i];
      GroupRowsLink(pre, i);
    }
    StepRefs(GroupRows(pre), rows[n], id, t);
    StepLink(GroupRows(pre), rows[n], id, t);
  }

  /** The result entry: the docket's fields with `cfr_refs` flattened to a list. */
  datatype DocketSummary = DocketSummary(
    docketId: Value, docketTitle: Value, agencyId: Value, docketType: Value, modifyDate: Value,
    cfrRefs: seq<CfrRef>)

  function Summarize(d: Docket): (s: DocketSummary)
    requires forall t :: t in d.titles ==> t in d.cfrRefs
    ensures (s.docketId, s.docketTitle, s.agencyId, s.docketType, s.modifyDate) == Header(d)
    ensures |s.cfrRefs| == |d.titles|
    ensures forall j :: 0 <= j < |d.titles| ==> s.cfrRefs[j] == d.cfrRefs[d.titles[j]]
  {
    DocketSummary(d.docketId, d.docketTitle, d.agencyId, d.docketType, d.modifyDate,
                  seq(|d.titles|, j requires 0 <= j < |d.titles| => d.cfrRefs[d.titles[j]]))
  }

  /** `[{**d, "cfr_refs": list(d["cfr_refs"].values())} for d in dockets.values()]`. */
  function Flatten(idx: DocketIndex): (r: seq<DocketSummary>)
    requires Listed(idx)
    ensures |r| == |idx.order|
    ensures forall i :: 0 <= i < |r| ==> r[i] == Summarize(idx.dockets[idx.order[i]])
  {
    seq(|idx.order|, i requires 0 <= i < |idx.order| => Summarize(idx.dockets[idx.order[i]]))
  }

  /** The query `_search_dockets_postgres` runs. */
  function DocketsQuery(query: Option<string>): SqlQuery {
    SqlQuery([SelectDockets, Limit(RowLimit)], [TermPattern(query)])
  }

  /** The `dockets` dictionary, updated in place one row at a time. */
  class DocketTable {
    var dockets: map<Value, Docket>
    var order: seq<Value>

    constructor ()
      ensures dockets == map[] && order == []
    {
      dockets := map[];
      order := [];
    }

    function Index(): DocketIndex
      reads this
    {
      DocketIndex(dockets, order)
    }

    /** `_process_docket_row(dockets, row)`. */
    method ProcessRow(row: DocketRow)
      modifies this
      ensures Index() == ProcessDocketRow(old(Index()), row)
    {
      var docketId := row.0;
      if docketId !in dockets {
        dockets := dockets[docketId := Docket(row.0, row.1, row.2, row.3, row.4, map[], [])];
        order := order + [docketId];
      }
      var title, cfrPart, link := row.5, row.6, row.7;
      if title.Str? && cfrPart.Str? {
        var docket := dockets[docketId];
        if title.s !in docket.cfrRefs {
          docket := docket.(cfrRefs := docket.cfrRefs[title.s := CfrRef(title.s, [], link)],
                            titles := docket.titles + [title.s]);
        }
        var ref := docket.cfrRefs[title.s];
        if cfrPart.s !in ref.cfrParts {
          docket := docket.(cfrRefs := docket.cfrRefs[title.s := ref.(cfrParts := ref.cfrParts + [cfrPart.s])]);
        }
        dockets := dockets[docketId := docket];
      }
    }
  }

  /** `_search_dockets_postgres`: it needs a connection (the source fails without one). */
  method SearchDockets(layer: DBLayer, query: Option<string>) returns (result: seq<DocketSummary>)
    requires layer.conn.Some?
    ensures result == Flatten(GroupRows(layer.conn.value.docketRows(DocketsQuery(query))))
  {
    var rows := layer.conn.value.docketRows(DocketsQuery(query));
    var table := new DocketTable();
    for i := 0 to |rows|
      invariant table.Index() == GroupRows(rows[..i])
    {
      GroupRowsStep(rows, i);
      table.ProcessRow(rows[i]);
    }
    assert rows[..|rows|] == rows;
    result := Flatten(table.Index());
  }

  /** Grouping one more row is one more `_process_docket_row`. */
  lemma GroupRowsStep(rows: seq<DocketRow>, i: nat)
    requires i < |rows|
    ensures GroupRows(rows[..i + 1]) == ProcessDocketRow(GroupRows(rows[..i]), rows[i])
  {
    assert rows[..i + 1][..i] == rows[..i];
  }
}
