/**
 * The search page of frontend/src/App.jsx: its state, the agency list the
 * agency search box narrows, the count of active advanced filters, the
 * "clear" action and the request the page sends when a search runs.
 * A JavaScript `Set` is a sequence without duplicates in insertion order.
 */
module Frontend {
  import opened Text
  import opened Seqs

  /** One entry of `TOP_AGENCIES`. */
  datatype Agency = Agency(code: string, name: string)

  /** `agencies.map((a) => a.code)`. */
  function Codes(agencies: seq<Agency>): (r: seq<string>)
    ensures |r| == |agencies|
    ensures forall i :: 0 <= i < |agencies| ==> r[i] == agencies[i].code
  {
    seq(|agencies|, i requires 0 <= i < |agencies| => agencies[i].code)
  }

  lemma CodesIn(agencies: seq<Agency>, a: Agency)
    requires a in agencies
    ensures a.code in Codes(agencies)
  {
    var i :| 0 <= i < |agencies| && agencies[i] == a;
    assert Codes(agencies)[i] == a.code;
  }

  lemma CodesPrepend(a: Agency, rest: seq<Agency>)
    ensures Codes([a] + rest) == [a.code] + Codes(rest)
  {
  }

  const EpaName: string := "Environmental Protection Agency"
  const HhsName: string := "Health and Human Services"
  const FdaName: string := "Food and Drug Administration"
  const CmsName: string := "Centers for Medicare & Medicaid Services"
  const DotName: string := "Department of Transportation"
  const FccName: string := "Federal Communications Commission"

  /** `TOP_AGENCIES`, in the order the page lists them. */
  function TopAgencies(): (r: seq<Agency>)
    ensures Codes(r) == ["EPA", "HHS", "FDA", "CMS", "DOT", "FCC"]
  {
    [Agency("EPA", EpaName), Agency("HHS", HhsName), Agency("FDA", FdaName),
     Agency("CMS", CmsName), Agency("DOT", DotName), Agency("FCC", FccName)]
  }

  /** No two of the listed agencies share a code. */
  lemma TopCodesDistinct()
    ensures NoDuplicates(Codes(TopAgencies()))
  {
  }

  /** The lower-cased code or the lower-cased name contains the lower-cased query. */
  predicate AgencyMatches(a: Agency, q: string) {
    Contains(Lower(a.code), q) || Contains(Lower(a.name), q)
  }

  /**
   * `agencies.filter(...)` with `AgencyMatches`. The contract fixes which
   * agencies are kept and their order; `TOP_AGENCIES` lists no agency twice,
   * so multiplicity is not stated.
   */
  function FilterAgencies(agencies: seq<Agency>, q: string): (r: seq<Agency>)
    ensures forall a :: a in r <==> a in agencies && AgencyMatches(a, q)
    ensures IsSubsequence(r, agencies)
  {
    if agencies == [] then []
    else
      var first, rest := agencies[0], FilterAgencies(agencies[1..], q);
      assert agencies == [first] + agencies[1..];
      if AgencyMatches(first, q) then
        SubsequenceKeep(rest, first, agencies[1..]);
        [first] + rest
      else
        SubsequenceSkip(rest, first, agencies[1..]);
        rest
  }

  /** Filtering keeps codes distinct. */
  lemma {:induction false} FilterAgenciesCodes(agencies: seq<Agency>, q: string)
    ensures forall c :: c in Codes(FilterAgencies(agencies, q)) ==> c in Codes(agencies)
    ensures NoDuplicates(Codes(agencies)) ==> NoDuplicates(Codes(FilterAgencies(agencies, q)))
  {
    if agencies != [] {
      var first, rest := agencies[0], FilterAgencies(agencies[1..], q);
      FilterAgenciesCodes(agencies[1..], q);
      assert agencies == [first] + agencies[1..];
      CodesPrepend(first, agencies[1..]);
      if AgencyMatches(first, q) {
        CodesPrepend(first, rest);
        if NoDuplicates(Codes(agencies)) {
          assert first.code !in Codes(agencies[1..]);
          PrependFresh(first.code, Codes(rest));
        }
      }
    }
  }

  /**
   * `agenciesToShow`: with an empty search box every agency, in order;
   * otherwise the agencies whose code or name contains the search text,
   * compared in lower case. The search text is not trimmed.
   */
  function AgenciesToShow(agencySearch: string): (r: seq<Agency>)
    ensures agencySearch == "" ==> r == TopAgencies()
    ensures agencySearch != "" ==>
      forall a :: a in r <==> a in TopAgencies() && AgencyMatches(a, Lower(agencySearch))
    ensures IsSubsequence(r, TopAgencies())
    ensures NoDuplicates(Codes(r))
  {
    TopCodesDistinct();
    var q := Lower(agencySearch);
    if q == "" then
      SubsequenceOfSelf(TopAgencies());
      TopAgencies()
    else
      FilterAgenciesCodes(TopAgencies(), q);
      FilterAgencies(TopAgencies(), q)
  }

  /** Typing more characters into the agency search box never brings an agency back. */
  lemma AgencySearchNarrows(search: string, more: string)
    ensures forall a :: a in AgenciesToShow(search + more) ==> a in AgenciesToShow(search)
  {
    if search != "" {
      LowerConcat(search, more);
      forall a | a in AgenciesToShow(search + more)
        ensures a in AgenciesToShow(search)
      {
        if Contains(Lower(a.code), Lower(search) + Lower(more)) {
          ContainsLonger(Lower(a.code), Lower(search), Lower(more));
        } else {
          ContainsLonger(Lower(a.name), Lower(search), Lower(more));
        }
      }
    }
  }

  /** `Array.from(selectedAgencies)[0] || ""`. */
  function FirstAgency(selected: seq<string>): (r: string)
    ensures selected == [] ==> r == ""
    ensures selected != [] ==> r == selected[0]
  {
    if selected == [] then "" else selected[0]
  }

  /**
   * The agency sent is the earliest one still selected: selecting or
   * deselecting any other agency leaves it in place, and deselecting it
   * hands the place to the next one selected.
   */
  lemma FirstAgencyIsEarliestSelected(selected: seq<string>, code: string)
    requires NoDuplicates(selected)
    ensures selected == [] ==> FirstAgency(Toggle(selected, code)) == code
    ensures selected != [] && code != selected[0] ==>
      FirstAgency(Toggle(selected, code)) == FirstAgency(selected)
    ensures |selected| >= 2 && code == selected[0] ==>
      FirstAgency(Toggle(selected, code)) == selected[1]
  {
    if selected != [] {
      assert selected == [selected[0]] + selected[1..];
      if code != selected[0] && code in selected {
        assert RemoveAll(selected, code) == [selected[0]] + RemoveAll(selected[1..], code);
      }
      if code == selected[0] {
        assert selected[0] !in selected[1..];
        assert RemoveAll(selected, code) == RemoveAll(selected[1..], code);
      }
    }
  }

  /** The state of the page component. */
  class App<R> {
    var query: string
    var docType: string
    var results: seq<R>
    var advOpen: bool
    var yearFrom: string
    var yearTo: string
    var agencySearch: string
    var selectedAgencies: seq<string>
    var status: seq<string>

    /** The two sets hold each element once. */
    ghost predicate Valid()
      reads this
    {
      NoDuplicates(selectedAgencies) && NoDuplicates(status)
    }

    /** The initial values of the `useState` hooks. */
    constructor ()
      ensures query == "" && docType == "" && results == [] && advOpen
      ensures yearFrom == "" && yearTo == "" && agencySearch == ""
      ensures selectedAgencies == [] && status == []
      ensures Valid()
    {
      query, docType, results, advOpen := "", "", [], true;
      yearFrom, yearTo, agencySearch := "", "", "";
      selectedAgencies, status := [], [];
    }

    /**
     * `activeCount`: one for each year bound that is set, plus the selected
     * agencies and statuses. The agency search text and the document type
     * are not counted.
     */
    function ActiveCount(): (n: nat)
      reads this
      ensures n == |selectedAgencies| + |status| + (if yearFrom != "" then 1 else 0) + (if yearTo != "" then 1 else 0)
      ensures n == 0 <==> yearFrom == "" && yearTo == "" && selectedAgencies == [] && status == []
      ensures |selectedAgencies| + |status| <= n <= |selectedAgencies| + |status| + 2
    {
      (if yearFrom != "" then 1 else 0) + (if yearTo != "" then 1 else 0) + |selectedAgencies| + |status|
    }

    /** `clearAdvanced`: the five advanced-filter setters, in order. */
    method ClearAdvanced()
      modifies this
      ensures yearFrom == "" && yearTo == "" && agencySearch == ""
      ensures selectedAgencies == [] && status == []
      ensures query == old(query) && docType == old(docType) && results == old(results)
      ensures advOpen == old(advOpen)
      ensures Valid() && ActiveCount() == 0
    {
      yearFrom := "";
      yearTo := "";
      agencySearch := "";
      selectedAgencies := [];
      status := [];
    }

    /**
     * `runSearch`: sends the query, the document type and the first selected
     * agency, and stores the answer. `fetch` stands for `searchDockets`.
     */
    method RunSearch(fetch: (string, string, string) -> seq<R>)
      modifies this
      ensures results == fetch(query, docType, FirstAgency(selectedAgencies))
      ensures query == old(query) && docType == old(docType) && advOpen == old(advOpen)
      ensures yearFrom == old(yearFrom) && yearTo == old(yearTo) && agencySearch == old(agencySearch)
      ensures selectedAgencies == old(selectedAgencies) && status == old(status)
    {
      var firstAgency := FirstAgency(selectedAgencies);
      var data := fetch(query, docType, firstAgency);
      results := data;
    }

    /** The status checkbox handler: a copy of the set without `s`, or with `s` added. */
    method ToggleStatus(s: string)
      requires Valid()
      modifies this
      ensures status == Toggle(old(status), s)
      ensures s in status <==> s !in old(status)
      ensures if s in old(status) then ActiveCount() + 1 == old(ActiveCount()) else ActiveCount() == old(ActiveCount()) + 1
      ensures selectedAgencies == old(selectedAgencies) && yearFrom == old(yearFrom) && yearTo == old(yearTo)
      ensures query == old(query) && docType == old(docType) && results == old(results)
      ensures advOpen == old(advOpen) && agencySearch == old(agencySearch)
      ensures Valid()
    {
      status := Toggle(status, s);
    }

    /** The document-type radio handler: picking the current type again clears it. */
    method ToggleDocType(t: string)
      modifies this
      ensures old(docType) != t ==> docType == t
      ensures old(docType) == t ==> docType == ""
      ensures query == old(query) && results == old(results) && status == old(status)
      ensures selectedAgencies == old(selectedAgencies) && yearFrom == old(yearFrom) && yearTo == old(yearTo)
      ensures advOpen == old(advOpen) && agencySearch == old(agencySearch)
    {
      docType := if docType == t then "" else t;
    }
  }
}
