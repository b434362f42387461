/**
 * The list logic of frontend/src/components/AdvancedSidebar.jsx: the agency
 * list in the order the user last touched it, the CFR part list narrowed by
 * its search box, the "top five" truncation of both lists, and the two
 * checkbox handlers that toggle a selection and move the item to the top.
 */
module Sidebar {
  import opened Wrappers
  import opened Text
  import opened Seqs
  import opened Frontend

  /** Without a search, at least this many items of each list are shown. */
  const MinVisible: nat := 5

  /** CFR parts are numbered from 1 to this. */
  const CfrPartCount: nat := 200

  /** `cfrParts`: the numbers 1 to 200 in ascending order. */
  function InitialCfrOrder(): seq<nat> {
    seq(CfrPartCount, i requires 0 <= i < CfrPartCount => i + 1)
  }

  /** The initial CFR order lists every part from 1 to 200 once, in ascending order. */
  lemma InitialCfrOrderParts()
    ensures |InitialCfrOrder()| == CfrPartCount
    ensures forall i, j :: 0 <= i < j < CfrPartCount ==> InitialCfrOrder()[i] < InitialCfrOrder()[j]
    ensures NoDuplicates(InitialCfrOrder())
    ensures forall p :: p in InitialCfrOrder() <==> 1 <= p <= CfrPartCount
  {
    forall p | 1 <= p <= CfrPartCount
      ensures p in InitialCfrOrder()
    {
      assert InitialCfrOrder()[p - 1] == p;
    }
  }

  /** The order to follow: the user's own once there is one, else the shown agencies' codes. */
  function BaseOrder(agencyOrder: seq<string>, agenciesToShow: seq<Agency>): seq<string> {
    if |agencyOrder| > 0 then agencyOrder else Codes(agenciesToShow)
  }

  /** `agencies.find((a) => a.code === code)`. */
  function Find(agencies: seq<Agency>, code: string): (r: Option<Agency>)
    ensures r.Some? ==> r.value in agencies && r.value.code == code
    ensures r.None? <==> code !in Codes(agencies)
  {
    if agencies == [] then None
    else
      assert Codes(agencies) == [agencies[0].code] + Codes(agencies[1..]);
      if agencies[0].code == code then Some(agencies[0]) else Find(agencies[1..], code)
  }

  /** With distinct codes, an agency's own code finds that agency. */
  lemma {:induction false} FindOwnCode(agencies: seq<Agency>, a: Agency)
    requires NoDuplicates(Codes(agencies)) && a in agencies
    ensures Find(agencies, a.code) == Some(a)
  {
    if agencies[0] != a {
      var k :| 1 <= k < |agencies| && agencies[k] == a;
      assert Codes(agencies)[0] != Codes(agencies)[k];
      assert Codes(agencies[1..]) == Codes(agencies)[1..];
      assert agencies[1..][k - 1] == a;
      FindOwnCode(agencies[1..], a);
    }
  }

  /** The codes of `order` that some agency carries, in the order's order, repeats kept. */
  function KnownCodes(order: seq<string>, agencies: seq<Agency>): (r: seq<string>)
    ensures forall c :: c in r <==> c in order && c in Codes(agencies)
    ensures IsSubsequence(r, order)
    ensures NoDuplicates(order) ==> NoDuplicates(r)
  {
    if order == [] then []
    else
      var rest := KnownCodes(order[1..], agencies);
      assert order == [order[0]] + order[1..];
      assert NoDuplicates(order) ==> order[0] !in order[1..] && NoDuplicates(order[1..]);
      if order[0] in Codes(agencies) then
        SubsequenceKeep(rest, order[0], order[1..]);
        assert NoDuplicates(order) ==> NoDuplicates([order[0]] + rest) by {
          if NoDuplicates(order) {
            PrependFresh(order[0], rest);
          }
        }
        [order[0]] + rest
      else
        SubsequenceSkip(rest, order[0], order[1..]);
        rest
  }

  /**
   * `order.map(find).filter(Boolean)`: one agency for every code of the order
   * that names one, in the order's order, skipping unknown codes.
   */
  function LookUp(order: seq<string>, agencies: seq<Agency>): (r: seq<Agency>)
    ensures Codes(r) == KnownCodes(order, agencies)
    ensures |r| <= |order|
    ensures forall a :: a in r ==> a in agencies && a.code in order
  {
    if order == [] then []
    else
      match Find(agencies, order[0])
      case Some(a) =>
        CodesPrepend(a, LookUp(order[1..], agencies));
        [a] + LookUp(order[1..], agencies)
      case None => LookUp(order[1..], agencies)
  }

  /** Every code of the order that names a shown agency yields that agency. */
  lemma {:induction false} LookUpFinds(order: seq<string>, agencies: seq<Agency>, c: string)
    requires c in order && c in Codes(agencies)
    ensures exists a :: a in LookUp(order, agencies) && a.code == c
  {
    if order[0] == c {
      var a := Find(agencies, c).value;
      assert a in LookUp(order, agencies);
    } else {
      LookUpFinds(order[1..], agencies, c);
      var a :| a in LookUp(order[1..], agencies) && a.code == c;
      assert a in LookUp(order, agencies);
    }
  }

  /** `orderedAgencies`. */
  function OrderedAgencies(agencyOrder: seq<string>, agenciesToShow: seq<Agency>): seq<Agency> {
    LookUp(BaseOrder(agencyOrder, agenciesToShow), agenciesToShow)
  }

  /**
   * The ordered list shows only agencies the search lets through, and shows
   * each of those whose code is in the order.
   */
  lemma OrderedAgenciesMembers(agencyOrder: seq<string>, agenciesToShow: seq<Agency>)
    ensures forall a :: a in OrderedAgencies(agencyOrder, agenciesToShow) ==> a in agenciesToShow
    ensures forall a :: a in agenciesToShow && a.code in BaseOrder(agencyOrder, agenciesToShow) ==>
      exists b :: b in OrderedAgencies(agencyOrder, agenciesToShow) && b.code == a.code
  {
    forall a | a in agenciesToShow && a.code in BaseOrder(agencyOrder, agenciesToShow)
      ensures exists b :: b in OrderedAgencies(agencyOrder, agenciesToShow) && b.code == a.code
    {
      CodesIn(agenciesToShow, a);
      LookUpFinds(BaseOrder(agencyOrder, agenciesToShow), agenciesToShow, a.code);
    }
  }

  lemma {:induction false} LookUpOwnCodes(suffix: seq<Agency>, agencies: seq<Agency>)
    requires NoDuplicates(Codes(agencies))
    requires forall a :: a in suffix ==> a in agencies
    ensures LookUp(Codes(suffix), agencies) == suffix
  {
    if suffix != [] {
      assert Codes(suffix)[1..] == Codes(suffix[1..]);
      FindOwnCode(agencies, suffix[0]);
      LookUpOwnCodes(suffix[1..], agencies);
      assert suffix == [suffix[0]] + suffix[1..];
    }
  }

  /** Before any agency is toggled, the list is the shown agencies in their own order. */
  lemma OrderedAgenciesStartAsShown(agenciesToShow: seq<Agency>)
    requires NoDuplicates(Codes(agenciesToShow))
    ensures OrderedAgencies([], agenciesToShow) == agenciesToShow
  {
    LookUpOwnCodes(agenciesToShow, agenciesToShow);
  }

  /**
   * `visibleAgencies` and `visibleCfrParts`: the whole list while the
   * trimmed search text is not empty, otherwise its first
   * `max(5, selected.size)` items.
   */
  function Visible<T>(search: string, items: seq<T>, selectedCount: nat): (r: seq<T>)
    ensures r <= items
    ensures Trim(search) != [] ==> r == items
    ensures Trim(search) == [] && |items| <= MinVisible ==> r == items
    ensures Trim(search) == [] && |items| > MinVisible ==>
      |r| == if selectedCount < MinVisible then MinVisible else Min(selectedCount, |items|)
  {
    if Trim(search) != [] then items
    else
      items[..Min(Max(MinVisible, selectedCount), |items|)]
  }

  function VisibleAgencies(agencySearch: string, agencyOrder: seq<string>, agenciesToShow: seq<Agency>,
                           selectedAgencies: seq<string>): seq<Agency> {
    Visible(agencySearch, OrderedAgencies(agencyOrder, agenciesToShow), |selectedAgencies|)
  }

  /** The list shows at least as many items as are selected, when it has that many. */
  lemma VisibleCoversSelection<T>(search: string, items: seq<T>, selectedCount: nat)
    requires selectedCount <= |items|
    ensures |Visible(search, items, selectedCount)| >= selectedCount
    ensures forall i :: 0 <= i < Min(MinVisible, |items|) ==> items[i] in Visible(search, items, selectedCount)
  {
    var r := Visible(search, items, selectedCount);
    forall i | 0 <= i < Min(MinVisible, |items|)
      ensures items[i] in r
    {
      assert r[i] == items[i];
    }
  }

  /**
   * "Selecting an agency moves it to the top": after `toggleAgency(code)`
   * for a shown agency, that agency heads the ordered list and is visible,
   * whatever the search text and however many agencies are selected.
   */
  lemma ToggledAgencyOnTop(agencyOrder: seq<string>, agenciesToShow: seq<Agency>, code: string,
                           agencySearch: string, selectedAgencies: seq<string>)
    requires code in Codes(agenciesToShow)
    ensures var order := MoveToFront(code, BaseOrder(agencyOrder, agenciesToShow));
      var ordered := OrderedAgencies(order, agenciesToShow);
      && ordered != [] && ordered[0].code == code && ordered[0] in agenciesToShow
      && ordered[0] in VisibleAgencies(agencySearch, order, agenciesToShow, selectedAgencies)
  {
    var order := MoveToFront(code, BaseOrder(agencyOrder, agenciesToShow));
    assert BaseOrder(order, agenciesToShow) == order;
    var ordered := OrderedAgencies(order, agenciesToShow);
    assert ordered == [Find(agenciesToShow, code).value] + LookUp(order[1..], agenciesToShow);
    var r := VisibleAgencies(agencySearch, order, agenciesToShow, selectedAgencies);
    assert r[0] == ordered[0];
  }

  /**
   * The truncation keeps the first `max(5, selected.size)` agencies of the
   * order, not the selected ones. Take six shown agencies, such as
   * `TopAgencies()`, and select them from first to last: the order is now
   * their reverse. Deselecting the last one (already on top) leaves five
   * selected, and the earliest of them falls off the visible list.
   */
  lemma SelectedAgencyCanBeHidden(shown: seq<Agency>)
    requires |shown| == 6 && NoDuplicates(Codes(shown))
    ensures var codes := Codes(shown);
      var order := [codes[5], codes[4], codes[3], codes[2], codes[1], codes[0]];
      var selected := Toggle(codes, codes[5]);
      && MoveToFront(codes[5], order) == order
      && codes[0] in selected && |selected| == MinVisible
      && shown[0] !in VisibleAgencies("", order, shown, selected)
  {
    var codes := Codes(shown);
    var order := [codes[5], codes[4], codes[3], codes[2], codes[1], codes[0]];
    LastStaysOnTop(codes, order);
    DeselectLastOfSix(codes);
    var reversed := ReversedSix(shown);
    FirstFiveVisible(order, shown, codes[..5]);
  }

  lemma FirstFiveVisible(order: seq<string>, shown: seq<Agency>, selected: seq<string>)
    requires |OrderedAgencies(order, shown)| == 6 && |selected| == MinVisible
    ensures VisibleAgencies("", order, shown, selected) == OrderedAgencies(order, shown)[..5]
  {
    assert Trim("") == [];
  }

  lemma LastStaysOnTop(codes: seq<string>, order: seq<string>)
    requires |codes| == 6 && NoDuplicates(codes)
    requires order == [codes[5], codes[4], codes[3], codes[2], codes[1], codes[0]]
    ensures MoveToFront(codes[5], order) == order
  {
    assert codes[5] !in order[1..];
    assert order == [codes[5]] + order[1..];
  }

  lemma DeselectLastOfSix(codes: seq<string>)
    requires |codes| == 6 && NoDuplicates(codes)
    ensures Toggle(codes, codes[5]) == codes[..5]
    ensures codes[0] in codes[..5]
  {
    assert codes == codes[..5] + [codes[5]];
    assert codes[5] !in codes[..5];
    RemoveAllAppended(codes[..5], codes[5]);
  }

  lemma ReversedSix(agencies: seq<Agency>) returns (reversed: seq<Agency>)
    requires |agencies| == 6 && NoDuplicates(Codes(agencies))
    ensures reversed == [agencies[5], agencies[4], agencies[3], agencies[2], agencies[1], agencies[0]]
    ensures var codes := Codes(agencies);
      OrderedAgencies([codes[5], codes[4], codes[3], codes[2], codes[1], codes[0]], agencies) == reversed
    ensures agencies[0] !in reversed[..5]
  {
    var codes := Codes(agencies);
    reversed := [agencies[5], agencies[4], agencies[3], agencies[2], agencies[1], agencies[0]];
    assert Codes(reversed) == [codes[5], codes[4], codes[3], codes[2], codes[1], codes[0]];
    forall i | 0 < i < 6
      ensures agencies[0] != agencies[i]
    {
      assert Codes(agencies)[0] != Codes(agencies)[i];
    }
    LookUpOwnCodes(reversed, agencies);
  }

  /** Whether CFR part `part` matches the lower-cased query and its digits. */
  predicate PartMatches(part: nat, rawQuery: string, numericQuery: string) {
    var partText := NatToString(part);
    if numericQuery != [] then Contains(partText, numericQuery)
    else
      || Contains(partText, rawQuery)
      || Contains("part " + partText, rawQuery)
      || Contains("cfr part " + partText, rawQuery)
  }

  /**
   * `cfrOrder.filter(...)` with `PartMatches`. The contract fixes which parts
   * are kept and their order; the CFR order never lists a part twice, so
   * multiplicity is not stated.
   */
  function FilterParts(order: seq<nat>, rawQuery: string, numericQuery: string): (r: seq<nat>)
    ensures forall p :: p in r <==> p in order && PartMatches(p, rawQuery, numericQuery)
    ensures IsSubsequence(r, order)
  {
    if order == [] then []
    else
      var first, rest := order[0], FilterParts(order[1..], rawQuery, numericQuery);
      assert order == [first] + order[1..];
      if PartMatches(first, rawQuery, numericQuery) then
        SubsequenceKeep(rest, first, order[1..]);
        [first] + rest
      else
        SubsequenceSkip(rest, first, order[1..]);
        rest
  }

  /**
   * `filteredCfrParts`: with a blank search every part in the current order;
   * otherwise the parts whose number contains the digits of the search, or,
   * when the search has no digit, whose `N`, `part N` or `cfr part N` contains
   * the lower-cased search. The order of `cfrOrder` is kept.
   */
  function FilteredCfrParts(cfrSearch: string, cfrOrder: seq<nat>): (r: seq<nat>)
    ensures IsSubsequence(r, cfrOrder)
    ensures var rawQuery := Lower(Trim(cfrSearch));
      rawQuery != [] ==> forall p :: p in r <==> p in cfrOrder && PartMatches(p, rawQuery, Digits(rawQuery))
  {
    var rawQuery := Lower(Trim(cfrSearch));
    if rawQuery == [] then
      SubsequenceOfSelf(cfrOrder);
      cfrOrder
    else
      FilterParts(cfrOrder, rawQuery, Digits(rawQuery))
  }

  function VisibleCfrParts(cfrSearch: string, cfrOrder: seq<nat>, selectedCfrParts: seq<nat>): seq<nat> {
    Visible(cfrSearch, FilteredCfrParts(cfrSearch, cfrOrder), |selectedCfrParts|)
  }

  /** A search of whitespace alone filters nothing out and keeps the order. */
  lemma BlankCfrSearchKeepsOrder(cfrSearch: string, cfrOrder: seq<nat>)
    requires AllWhitespace(cfrSearch)
    ensures FilteredCfrParts(cfrSearch, cfrOrder) == cfrOrder
  {
    TrimAllWhitespace(cfrSearch);
  }

  /** Two searches with the same digits find the same parts: the words around them do not count. */
  lemma SameDigitsSameParts(search1: string, search2: string, cfrOrder: seq<nat>)
    requires Digits(Lower(Trim(search1))) == Digits(Lower(Trim(search2))) != []
    ensures FilteredCfrParts(search1, cfrOrder) == FilteredCfrParts(search2, cfrOrder)
  {
    var raw1, raw2 := Lower(Trim(search1)), Lower(Trim(search2));
    assert raw1 != [] && raw2 != [];
    FilterPartsOnlyDigits(cfrOrder, raw1, raw2, Digits(raw1));
  }

  lemma {:induction false} FilterPartsOnlyDigits(order: seq<nat>, raw1: string, raw2: string, numericQuery: string)
    requires numericQuery != []
    ensures FilterParts(order, raw1, numericQuery) == FilterParts(order, raw2, numericQuery)
  {
    if order != [] {
      FilterPartsOnlyDigits(order[1..], raw1, raw2, numericQuery);
    }
  }

  lemma {:induction false} FilterPartsAll(order: seq<nat>, rawQuery: string, numericQuery: string)
    requires forall p :: p in order ==> PartMatches(p, rawQuery, numericQuery)
    ensures FilterParts(order, rawQuery, numericQuery) == order
  {
    if order != [] {
      assert order[0] in order;
      FilterPartsAll(order[1..], rawQuery, numericQuery);
      assert order == [order[0]] + order[1..];
    }
  }

  /** A part's own number, searched for, always finds it. */
  lemma PartNumberFindsPart(part: nat, cfrOrder: seq<nat>)
    requires part in cfrOrder
    ensures part in FilteredCfrParts(NatToString(part), cfrOrder)
  {
    var s := NatToString(part);
    assert Trim(s) == s;
    assert Lower(s) == s;
    assert s <= s;
  }

  /** The word "Part" with no number is in every part's label, so it keeps the whole list. */
  lemma WordPartKeepsAll(cfrOrder: seq<nat>)
    ensures FilteredCfrParts("Part", cfrOrder) == cfrOrder
  {
    assert Trim("Part") == "Part";
    assert Lower("Part") == "part";
    assert Digits("part") == [];
    forall p | p in cfrOrder
      ensures PartMatches(p, "part", [])
    {
      assert "part" <= "part " + NatToString(p);
    }
    FilterPartsAll(cfrOrder, "part", []);
  }

  /**
   * After `toggleCfrPart(part)` the part heads the order, and with a blank
   * search it heads the visible list.
   */
  lemma ToggledPartOnTop(cfrSearch: string, cfrOrder: seq<nat>, selectedCfrParts: seq<nat>, part: nat)
    requires AllWhitespace(cfrSearch)
    ensures var order := MoveToFront(part, cfrOrder);
      var visible := VisibleCfrParts(cfrSearch, order, selectedCfrParts);
      visible != [] && visible[0] == part
  {
    var order := MoveToFront(part, cfrOrder);
    BlankCfrSearchKeepsOrder(cfrSearch, order);
    TrimAllWhitespace(cfrSearch);
  }

  /** The sidebar's own state, and the CFR selection it is handed. */
  class AdvancedSidebar {
    var agencyOrder: seq<string>
    var cfrSearch: string
    var cfrOrder: seq<nat>
    var selectedCfrParts: seq<nat>

    /** Each list holds an item at most once. */
    ghost predicate Valid()
      reads this
    {
      NoDuplicates(agencyOrder) && NoDuplicates(cfrOrder) && NoDuplicates(selectedCfrParts)
    }

    /** The initial values of the `useState` hooks; no CFR part is selected. */
    constructor ()
      ensures agencyOrder == [] && cfrSearch == "" && cfrOrder == InitialCfrOrder()
      ensures selectedCfrParts == []
      ensures Valid()
    {
      InitialCfrOrderParts();
      agencyOrder, cfrSearch, cfrOrder := [], "", InitialCfrOrder();
      selectedCfrParts := [];
    }

    /**
     * `toggleAgency(code)`: toggles the code in the page's selection and
     * moves it to the front of the agency order, which starts from the shown
     * agencies' codes when the user has not ordered anything yet.
     */
    method ToggleAgency<R>(app: App<R>, code: string)
      requires Valid() && app.Valid()
      modifies this, app
      ensures app.selectedAgencies == Toggle(old(app.selectedAgencies), code)
      ensures if code in old(app.selectedAgencies) then app.ActiveCount() + 1 == old(app.ActiveCount())
              else app.ActiveCount() == old(app.ActiveCount()) + 1
      ensures agencyOrder == MoveToFront(code, BaseOrder(old(agencyOrder), AgenciesToShow(old(app.agencySearch))))
      ensures cfrSearch == old(cfrSearch) && cfrOrder == old(cfrOrder) && selectedCfrParts == old(selectedCfrParts)
      ensures app.query == old(app.query) && app.docType == old(app.docType) && app.results == old(app.results)
      ensures app.advOpen == old(app.advOpen) && app.agencySearch == old(app.agencySearch)
      ensures app.yearFrom == old(app.yearFrom) && app.yearTo == old(app.yearTo) && app.status == old(app.status)
      ensures Valid() && app.Valid()
    {
      app.selectedAgencies := Toggle(app.selectedAgencies, code);
      var base := BaseOrder(agencyOrder, AgenciesToShow(app.agencySearch));
      agencyOrder := MoveToFront(code, base);
    }

    /**
     * `toggleCfrPart(part)`: toggles the part in the selection and moves it
     * to the front of the CFR order; a part already listed is moved, so the
     * order stays a rearrangement of the same parts.
     */
    method ToggleCfrPart(part: nat)
      requires Valid()
      modifies this
      ensures selectedCfrParts == Toggle(old(selectedCfrParts), part)
      ensures cfrOrder == MoveToFront(part, old(cfrOrder))
      ensures part in old(cfrOrder) ==> multiset(cfrOrder) == multiset(old(cfrOrder))
      ensures agencyOrder == old(agencyOrder) && cfrSearch == old(cfrSearch)
      ensures Valid()
    {
      if part in cfrOrder {
        MoveToFrontPermutes(part, cfrOrder);
      }
      selectedCfrParts := Toggle(selectedCfrParts, part);
      cfrOrder := MoveToFront(part, cfrOrder);
    }
  }
}
