/**
 * The in-memory store of tests/mock_db.py: two fixed records, searched by a
 * trimmed, case-insensitive substring of the title or docket id, then
 * narrowed by case-insensitive equality on document type and on agency.
 */
module MockDb {
  import opened Wrappers
  import opened Text
  import opened Seqs

  /** One record of the fixture: docket id, title, CFR part, agency id, document type. */
  datatype Item = Item(docketId: string, title: string, cfrPart: string, agencyId: string, documentType: string)

  const FixtureDocket := "CMS-2025-0240"
  const FixtureCfrPart := "42 CFR Parts 413 and 512"
  const EsrdTitle := "CY 2026 Changes to the End-Stage Renal Disease (ESRD) "
    + "Prospective Payment System and Quality Incentive Program. "
    + "CMS1830-P Display"
  const MedicareTitle := "Medicare Program: End-Stage Renal Disease Prospective "
    + "Payment System, Payment for Renal Dialysis Services "
    + "Furnished to Individuals with Acute Kidney Injury, "
    + "End-Stage Renal Disease Quality Incentive Program, and "
    + "End-Stage Renal Disease Treatment Choices Model"

  /** `MockDBLayer._items`: a fresh copy of the two records on every call. */
  function Items(): (items: seq<Item>)
    ensures |items| == 2
    ensures forall x :: x in items ==>
      x.docketId == FixtureDocket && x.agencyId == "CMS" && x.documentType == "Proposed Rule"
  {
    [ Item(FixtureDocket,
           EsrdTitle,
           FixtureCfrPart, "CMS", "Proposed Rule"),
      Item(FixtureDocket,
           MedicareTitle,
           FixtureCfrPart, "CMS", "Proposed Rule") ]
  }

  /** One test a record must pass. */
  datatype Criterion =
    | TermIn(term: string)        // the term occurs in the lower-cased title or docket id
    | TypeIs(documentType: string) // the document type equals it, ignoring case
    | AgencyIs(agency: string)     // the agency id equals it, ignoring case

  predicate Matches(x: Item, c: Criterion) {
    match c
    case TermIn(q) => Contains(Lower(x.title), q) || Contains(Lower(x.docketId), q)
    case TypeIs(t) => Lower(x.documentType) == Lower(t)
    case AgencyIs(a) => Lower(x.agencyId) == Lower(a)
  }

  predicate MatchesAll(x: Item, cs: seq<Criterion>) {
    forall c :: c in cs ==> Matches(x, c)
  }

  /**
   * A list comprehension `[item for item in items if ...]` over the given tests.
   * The contract fixes which records are kept and their order; the fixture
   * holds no record twice, so multiplicity is not stated.
   */
  function Keep(items: seq<Item>, cs: seq<Criterion>): (r: seq<Item>)
    ensures forall x :: x in r <==> x in items && MatchesAll(x, cs)
    ensures IsSubsequence(r, items)
  {
    if items == [] then []
    else
      var rest := Keep(items[1..], cs);
      assert forall x :: x in items <==> x == items[0] || x in items[1..];
      assert [items[0]] + items[1..] == items;
      if MatchesAll(items[0], cs) then
        SubsequenceKeep(rest, items[0], items[1..]);
        [items[0]] + rest
      else
        SubsequenceSkip(rest, items[0], items[1..]);
        rest
  }

  /** `(query or "").strip().lower()`. */
  function SearchTerm(query: Option<string>): string {
    Lower(Trim(query.GetOr("")))
  }

  /** `MockDBLayer.search` over a given record list. */
  function SearchIn(items: seq<Item>, query: Option<string>, filterParam: Option<string>, agency: Option<string>)
    : (r: seq<Item>)
    ensures forall x :: x in r <==>
      && x in items
      && Matches(x, TermIn(SearchTerm(query)))
      && (Present(filterParam) ==> Matches(x, TypeIs(filterParam.value)))
      && (Present(agency) ==> Matches(x, AgencyIs(agency.value)))
  {
    var results := Keep(items, [TermIn(SearchTerm(query))]);
    var results1 := if Present(filterParam) then Keep(results, [TypeIs(filterParam.value)]) else results;
    if Present(agency) then Keep(results1, [AgencyIs(agency.value)]) else results1
  }

  /** `MockDBLayer.search`. */
  function Search(query: Option<string>, filterParam: Option<string>, agency: Option<string>): seq<Item> {
    SearchIn(Items(), query, filterParam, agency)
  }

  /** `MockDBLayer.get_all`. */
  function GetAll(): seq<Item> {
    Items()
  }

  /** The tests that `search` applies, in order. */
  function Criteria(query: Option<string>, filterParam: Option<string>, agency: Option<string>): seq<Criterion> {
    [TermIn(SearchTerm(query))]
      + (if Present(filterParam) then [TypeIs(filterParam.value)] else [])
      + (if Present(agency) then [AgencyIs(agency.value)] else [])
  }

  lemma CriteriaMeaning(x: Item, query: Option<string>, filterParam: Option<string>, agency: Option<string>)
    ensures MatchesAll(x, Criteria(query, filterParam, agency)) <==>
      && Matches(x, TermIn(SearchTerm(query)))
      && (Present(filterParam) ==> Matches(x, TypeIs(filterParam.value)))
      && (Present(agency) ==> Matches(x, AgencyIs(agency.value)))
  {
    var cs := Criteria(query, filterParam, agency);
    assert cs[0] == TermIn(SearchTerm(query));
    if Present(filterParam) {
      assert cs[1] == TypeIs(filterParam.value);
    }
    if Present(agency) {
      assert cs[|cs| - 1] == AgencyIs(agency.value);
    }
  }

  /** Filtering twice is filtering once by both sets of tests. */
  lemma {:induction false} KeepKeep(items: seq<Item>, cs1: seq<Criterion>, cs2: seq<Criterion>)
    ensures Keep(Keep(items, cs1), cs2) == Keep(items, cs1 + cs2)
  {
    if items != [] {
      KeepKeep(items[1..], cs1, cs2);
      var x := items[0];
      assert MatchesAll(x, cs1 + cs2) <==> MatchesAll(x, cs1) && MatchesAll(x, cs2);
      if MatchesAll(x, cs1) {
        assert Keep(items, cs1) == [x] + Keep(items[1..], cs1);
        assert Keep(items, cs1)[1..] == Keep(items[1..], cs1);
      }
    }
  }

  /** Two lists of tests that every record passes or fails alike filter alike. */
  lemma {:induction false} KeepSameTests(items: seq<Item>, cs1: seq<Criterion>, cs2: seq<Criterion>)
    requires forall x :: x in items ==> MatchesAll(x, cs1) == MatchesAll(x, cs2)
    ensures Keep(items, cs1) == Keep(items, cs2)
  {
    if items != [] {
      assert forall x :: x in items[1..] ==> x in items;
      KeepSameTests(items[1..], cs1, cs2);
    }
  }

  /** A filter every record passes keeps the list as it is. */
  lemma {:induction false} KeepAllMatch(items: seq<Item>, cs: seq<Criterion>)
    requires forall x :: x in items ==> MatchesAll(x, cs)
    ensures Keep(items, cs) == items
  {
    if items != [] {
      assert forall x :: x in items[1..] ==> x in items;
      KeepAllMatch(items[1..], cs);
      assert [items[0]] + items[1..] == items;
    }
  }

  /** A filter no record passes leaves nothing. */
  lemma {:induction false} KeepNoneMatch(items: seq<Item>, cs: seq<Criterion>)
    requires forall x :: x in items ==> !MatchesAll(x, cs)
    ensures Keep(items, cs) == []
  {
    if items != [] {
      assert forall x :: x in items[1..] ==> x in items;
      KeepNoneMatch(items[1..], cs);
    }
  }

  /**
   * The chain of comprehensions is one filter by all the tests that apply,
   * so the result is an order-preserving subsequence of the records.
   */
  lemma SearchIsOneFilter(items: seq<Item>, query: Option<string>, filterParam: Option<string>, agency: Option<string>)
    ensures SearchIn(items, query, filterParam, agency) == Keep(items, Criteria(query, filterParam, agency))
    ensures IsSubsequence(SearchIn(items, query, filterParam, agency), items)
  {
    var term := [TermIn(SearchTerm(query))];
    var byType := if Present(filterParam) then [TypeIs(filterParam.value)] else [];
    var byAgency := if Present(agency) then [AgencyIs(agency.value)] else [];
    var r0 := Keep(items, term);
    var r1 := if Present(filterParam) then Keep(r0, byType) else r0;
    if Present(filterParam) {
      KeepKeep(items, term, byType);
    } else {
      assert term + byType == term;
    }
    assert r1 == Keep(items, term + byType);
    if Present(agency) {
      KeepKeep(items, term + byType, byAgency);
    } else {
      assert term + byType + byAgency == term + byType;
    }
  }

  /** The two filters commute: narrowing by agency first gives the same list. */
  lemma FiltersCommute(items: seq<Item>, query: Option<string>, filterParam: string, agency: string)
    requires filterParam != "" && agency != ""
    ensures SearchIn(items, query, Some(filterParam), Some(agency))
         == Keep(SearchIn(items, query, None, Some(agency)), [TypeIs(filterParam)])
  {
    var term := [TermIn(SearchTerm(query))];
    SearchIsOneFilter(items, query, Some(filterParam), Some(agency));
    SearchIsOneFilter(items, query, None, Some(agency));
    assert Criteria(query, None, Some(agency)) == term + [AgencyIs(agency)];
    KeepKeep(items, term + [AgencyIs(agency)], [TypeIs(filterParam)]);
    var both := Criteria(query, Some(filterParam), Some(agency));
    var swapped := term + [AgencyIs(agency)] + [TypeIs(filterParam)];
    assert both == term + [TypeIs(filterParam)] + [AgencyIs(agency)];
    assert forall c :: c in both <==> c in swapped;
    KeepSameTests(items, both, swapped);
  }

  /** A missing, empty or all-whitespace query keeps every record. */
  lemma BlankQueryKeepsAll(items: seq<Item>, query: Option<string>)
    requires query.None? || AllWhitespace(query.value)
    ensures SearchIn(items, query, None, None) == items
  {
    var ws := query.GetOr("");
    assert AllWhitespace(ws);
    TrimStartSkipsWhitespace(ws, []);
    assert ws + [] == ws;
    assert SearchTerm(query) == [];
    KeepAllMatch(items, [TermIn([])]);
  }

  /** Queries that differ only in letter case, and filters that do, give the same result. */
  lemma SearchIgnoresCase(items: seq<Item>, q1: string, q2: string, f1: string, f2: string, a1: string, a2: string)
    requires Lower(q1) == Lower(q2) && Lower(f1) == Lower(f2) && Lower(a1) == Lower(a2)
    ensures SearchIn(items, Some(q1), Some(f1), Some(a1)) == SearchIn(items, Some(q2), Some(f2), Some(a2))
  {
    LowerTrimAgree(q1, q2);
    assert |f1| == |Lower(f1)| == |f2| && |a1| == |Lower(a1)| == |a2|;
    var cs1, cs2 := Criteria(Some(q1), Some(f1), Some(a1)), Criteria(Some(q2), Some(f2), Some(a2));
    assert SearchTerm(Some(q1)) == SearchTerm(Some(q2));
    forall x | x in items
      ensures MatchesAll(x, cs1) == MatchesAll(x, cs2)
    {
      CriteriaMeaning(x, Some(q1), Some(f1), Some(a1));
      CriteriaMeaning(x, Some(q2), Some(f2), Some(a2));
    }
    SearchIsOneFilter(items, Some(q1), Some(f1), Some(a1));
    SearchIsOneFilter(items, Some(q2), Some(f2), Some(a2));
    KeepSameTests(items, cs1, cs2);
  }

  /** Whitespace around the query does not change the result. */
  lemma SearchIgnoresPadding(items: seq<Item>, ws1: string, q: string, ws2: string,
                             filterParam: Option<string>, agency: Option<string>)
    requires AllWhitespace(ws1) && AllWhitespace(ws2)
    ensures SearchIn(items, Some(ws1 + q + ws2), filterParam, agency) == SearchIn(items, Some(q), filterParam, agency)
  {
    TrimPadded(ws1, q, ws2);
  }

  /** No record is a final rule, whatever the query. */
  lemma FinalRuleMatchesNothing(query: Option<string>)
    ensures Search(query, Some("Final Rule"), None) == []
  {
    var cs := Criteria(query, Some("Final Rule"), None);
    forall x | x in Items()
      ensures !MatchesAll(x, cs)
    {
      CriteriaMeaning(x, query, Some("Final Rule"), None);
    }
    SearchIsOneFilter(Items(), query, Some("Final Rule"), None);
    KeepNoneMatch(Items(), cs);
  }

  /**
   * The agency filter is equality, not substring: "CMS" keeps both records
   * of an unrestricted search, "CM" keeps none.
   */
  lemma AgencyFilterIsEquality()
    ensures Search(Some(""), None, Some("CMS")) == Items()
    ensures Search(Some(""), None, Some("CM")) == []
  {
    BlankQueryKeepsAll(Items(), Some(""));
    KeepAllMatch(Items(), [AgencyIs("CMS")]);
  }

  /** A query for the docket's year finds both records, through the docket id. */
  lemma YearFindsBoth()
    ensures Search(Some("2025"), None, None) == Items()
  {
    assert Trim("2025") == "2025";
    assert Lower("2025") == "2025";
    var d := Lower(FixtureDocket);
    assert d[4..8] == "2025";
    ContainsAt(d, "2025", 4);
    KeepAllMatch(Items(), [TermIn("2025")]);
  }

  /** The unfiltered search is `get_all`. */
  lemma GetAllIsUnfilteredSearch()
    ensures Search(None, None, None) == GetAll()
  {
    BlankQueryKeepsAll(Items(), None);
  }
}
