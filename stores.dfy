/**
 * The operating-store list: only approved (심사완료) stores, narrowed by the
 * free-text search over name, region, category and the optional owner fields,
 * and by the detail conditions on name and region with their draft inputs.
 */
module Stores {
  import opened Wrappers
  import opened Text
  import opened Types
  import opened Filtering

  /**
   * The free-text clause shared by the store list and the store settings page:
   * lower-cased name, region, category, owner name and address, and the raw
   * owner phone against the raw query; an absent optional field holds nothing.
   */
  function StoreSearch(query: string, fold: string -> string): Clause<Store> {
    FreeText(query, [
      Probe((s: Store) => Some(s.name), true, true),
      Probe((s: Store) => Some(s.region), true, true),
      Probe((s: Store) => Some(s.category), true, true),
      Probe((s: Store) => s.ownerName, true, true),
      Probe((s: Store) => s.ownerPhone, false, false),
      Probe((s: Store) => s.address, true, true)], fold)
  }

  /** A non-empty query matches a store when one of the six fields holds it. */
  predicate StoreQueryMatches(s: Store, query: string, fold: string -> string) {
    || Contains(fold(s.name), fold(query))
    || Contains(fold(s.region), fold(query))
    || Contains(fold(s.category), fold(query))
    || (s.ownerName.Some? && Contains(fold(s.ownerName.value), fold(query)))
    || (s.ownerPhone.Some? && Contains(s.ownerPhone.value, query))
    || (s.address.Some? && Contains(fold(s.address.value), fold(query)))
  }

  lemma StoreSearchMeaning(s: Store, query: string, fold: string -> string)
    ensures Holds(StoreSearch(query, fold), s) <==> query == "" || StoreQueryMatches(s, query, fold)
  {
    var ps := StoreSearch(query, fold).probes;
    if query != "" && Holds(StoreSearch(query, fold), s) {
      var i :| 0 <= i < |ps| && ProbeMatches(ps[i], s, query, fold);
      assert i == 0 || i == 1 || i == 2 || i == 3 || i == 4 || i == 5;
    }
    if query != "" && StoreQueryMatches(s, query, fold) {
      if Contains(fold(s.name), fold(query)) { assert ProbeMatches(ps[0], s, query, fold); }
      else if Contains(fold(s.region), fold(query)) { assert ProbeMatches(ps[1], s, query, fold); }
      else if Contains(fold(s.category), fold(query)) { assert ProbeMatches(ps[2], s, query, fold); }
      else if s.ownerName.Some? && Contains(fold(s.ownerName.value), fold(query)) { assert ProbeMatches(ps[3], s, query, fold); }
      else if s.ownerPhone.Some? && Contains(s.ownerPhone.value, query) { assert ProbeMatches(ps[4], s, query, fold); }
      else { assert ProbeMatches(ps[5], s, query, fold); }
    }
  }

  /** A store without any owner field or address matches a non-empty query only through name, region or category. */
  lemma AbsentOwnerFieldsNeverMatch(s: Store, query: string, fold: string -> string)
    requires s.ownerName.None? && s.ownerPhone.None? && s.address.None?
    ensures Holds(StoreSearch(query, fold), s) <==>
      query == "" || Contains(fold(s.name), fold(query)) || Contains(fold(s.region), fold(query))
                  || Contains(fold(s.category), fold(query))
  {
    StoreSearchMeaning(s, query, fold);
  }

  /** `operatingStores`: the approved stores, in list order. */
  function OperatingStores(stores: seq<Store>): (r: seq<Store>)
    ensures forall s :: s in r <==> s in stores && s.status == Approved
    ensures Subsequence(r, stores)
    ensures (forall s :: s in stores ==> s.status == Approved) ==> r == stores
  {
    var cs := [Where((s: Store) => s.status == Approved)];
    FilterMembers(stores, cs);
    FilterIsSubsequence(stores, cs);
    assert forall s :: HoldsAll(cs, s) <==> Holds(cs[0], s);
    assert (forall s :: s in stores ==> s.status == Approved) ==> Filter(stores, cs) == stores by {
      if forall s :: s in stores ==> s.status == Approved { FilterAllPass(stores, cs); }
    }
    Filter(stores, cs)
  }

  function StoreClauses(query: string, name: string, region: string, fold: string -> string): seq<Clause<Store>> {
    [StoreSearch(query, fold),
     Substring((s: Store) => s.name, name),
     Exact((s: Store) => s.region, region)]
  }

  /** The condition of the store list's `filteredStores`, written out. */
  predicate StoreMatches(s: Store, query: string, name: string, region: string, fold: string -> string) {
    && (query == "" || StoreQueryMatches(s, query, fold))
    && (name == "" || Contains(s.name, name))
    && (region == All || s.region == region)
  }

  /** `filteredStores`: the operating stores meeting the query, the name and the region, in list order. */
  function FilteredStores(stores: seq<Store>, query: string, name: string, region: string, fold: string -> string): (r: seq<Store>)
    ensures forall s :: s in r <==> (s in stores && s.status == Approved && StoreMatches(s, query, name, region, fold))
    ensures Subsequence(r, stores)
    ensures query == "" && name == "" && region == All ==> r == OperatingStores(stores)
  {
    var operating := OperatingStores(stores);
    var cs := StoreClauses(query, name, region, fold);
    FilterMembers(operating, cs);
    FilterIsSubsequence(operating, cs);
    SubsequenceTransitive(Filter(operating, cs), operating, stores);
    assert forall s :: HoldsAll(cs, s) <==> StoreMatches(s, query, name, region, fold) by {
      forall s ensures HoldsAll(cs, s) <==> StoreMatches(s, query, name, region, fold) {
        assert HoldsAll(cs, s) <==> Holds(cs[0], s) && Holds(cs[1], s) && Holds(cs[2], s);
        StoreSearchMeaning(s, query, fold);
      }
    }
    assert query == "" && name == "" && region == All ==> Filter(operating, cs) == operating by {
      if query == "" && name == "" && region == All { FilterVacuous(operating, cs); }
    }
    Filter(operating, cs)
  }

  /** Whatever the conditions, the list shows approved stores only. */
  lemma OnlyApprovedListed(stores: seq<Store>, query: string, name: string, region: string, fold: string -> string)
    ensures forall s :: s in FilteredStores(stores, query, name, region, fold) ==> s.status == Approved
    ensures |FilteredStores(stores, query, name, region, fold)| <= |OperatingStores(stores)|
  {
    var operating := OperatingStores(stores);
    var cs := StoreClauses(query, name, region, fold);
    FilterLength(operating, cs);
  }

  /** The name condition is case sensitive: a name differing from the needle only by case need not match. */
  lemma NameConditionIsCaseSensitive(s: Store, query: string, region: string, fold: string -> string)
    requires s.name == "Cafe"
    ensures !StoreMatches(s, query, "cafe", region, fold)
  {
    assert !Contains("Cafe", "cafe") by {
      assert !StartsWith("Cafe", "cafe") by { assert "Cafe"[0] != "cafe"[0]; }
      assert !Contains("afe", "cafe") by {
        if Contains("afe", "cafe") { ContainsNoLonger("afe", "cafe"); }
      }
    }
  }

  // ------------------------------------------------------------------ page

  /**
   * The store list's state: the free-text box (draft and active), and the
   * name and region inputs (draft and applied).
   */
  class StoresPage {
    var nlSearch: string
    var activeNlSearch: string
    var nameFilter: string
    var regionFilter: string
    var searchName: string
    var searchRegion: string
    const stores: seq<Store>
    const fold: string -> string

    constructor (stores: seq<Store>, fold: string -> string)
      ensures nlSearch == "" && activeNlSearch == "" && nameFilter == "" && regionFilter == All
      ensures searchName == "" && searchRegion == All
      ensures this.stores == stores && this.fold == fold && View() == OperatingStores(stores)
    {
      nlSearch := "";
      activeNlSearch := "";
      nameFilter := "";
      regionFilter := All;
      searchName := "";
      searchRegion := All;
      this.stores := stores;
      this.fold := fold;
    }

    function View(): seq<Store>
      reads this
    {
      FilteredStores(stores, activeNlSearch, searchName, searchRegion, fold)
    }

    /** Typing in the free-text box changes only the draft. */
    method SetNlSearch(value: string)
      modifies this
      ensures nlSearch == value && activeNlSearch == old(activeNlSearch)
      ensures nameFilter == old(nameFilter) && regionFilter == old(regionFilter)
      ensures searchName == old(searchName) && searchRegion == old(searchRegion)
      ensures View() == old(View())
    {
      nlSearch := value;
    }

    /** `handleNlSearch`: the searched value becomes the active query; the detail conditions stay. */
    method NlSearch(value: string)
      modifies this
      ensures activeNlSearch == value && nlSearch == old(nlSearch)
      ensures nameFilter == old(nameFilter) && regionFilter == old(regionFilter)
      ensures searchName == old(searchName) && searchRegion == old(searchRegion)
      ensures View() == FilteredStores(stores, value, old(searchName), old(searchRegion), fold)
    {
      activeNlSearch := value;
    }

    method SetNameFilter(value: string)
      modifies this
      ensures nameFilter == value && regionFilter == old(regionFilter)
      ensures nlSearch == old(nlSearch) && activeNlSearch == old(activeNlSearch)
      ensures searchName == old(searchName) && searchRegion == old(searchRegion)
      ensures View() == old(View())
    {
      nameFilter := value;
    }

    method SetRegionFilter(value: string)
      modifies this
      ensures regionFilter == value && nameFilter == old(nameFilter)
      ensures nlSearch == old(nlSearch) && activeNlSearch == old(activeNlSearch)
      ensures searchName == old(searchName) && searchRegion == old(searchRegion)
      ensures View() == old(View())
    {
      regionFilter := value;
    }

    /** `handleSearch`: copy the name and region drafts; the free-text query is not touched. */
    method Search()
      modifies this
      ensures searchName == nameFilter && searchRegion == regionFilter
      ensures nameFilter == old(nameFilter) && regionFilter == old(regionFilter)
      ensures activeNlSearch == old(activeNlSearch) && nlSearch == old(nlSearch)
      ensures View() == FilteredStores(stores, old(activeNlSearch), old(nameFilter), old(regionFilter), fold)
    {
      searchName := nameFilter;
      searchRegion := regionFilter;
    }

    /** `handleKeyPress` of the name input: Enter searches; any other key changes nothing. */
    method KeyPress(key: string)
      modifies this
      ensures key == "Enter" ==> searchName == nameFilter && searchRegion == regionFilter
      ensures key != "Enter" ==> searchName == old(searchName) && searchRegion == old(searchRegion)
      ensures nameFilter == old(nameFilter) && regionFilter == old(regionFilter)
      ensures activeNlSearch == old(activeNlSearch) && nlSearch == old(nlSearch)
    {
      if key == "Enter" {
        Search();
      }
    }
  }
}
