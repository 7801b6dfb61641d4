/**
 * The store settings list: every store, whatever its status, narrowed by the
 * same free-text search as the store list, by the status chosen on the status
 * cards and by the applied region; the period picker is never applied.
 */
module StoreSettings {
  import opened Wrappers
  import opened Types
  import opened Filtering
  import opened Stores
  import StatusCards

  function SettingsClauses(query: string, selectedStatus: Option<string>, region: string, fold: string -> string): seq<Clause<Store>> {
    [StoreSearch(query, fold),
     Selected((s: Store) => s.status.Label(), selectedStatus),
     Exact((s: Store) => s.region, region)]
  }

  /** The condition of the settings page's `filteredStores`, written out: `null` and "" select every status. */
  predicate SettingsMatches(s: Store, query: string, selectedStatus: Option<string>, region: string, fold: string -> string) {
    && (query == "" || StoreQueryMatches(s, query, fold))
    && (selectedStatus == None || selectedStatus == Some("") || s.status.Label() == selectedStatus.value)
    && (region == All || s.region == region)
  }

  /** `filteredStores`: all stores meeting the query, the selected status and the region, in list order. */
  function FilteredSettings(stores: seq<Store>, query: string, selectedStatus: Option<string>, region: string, fold: string -> string): (r: seq<Store>)
    ensures forall s :: s in r <==> s in stores && SettingsMatches(s, query, selectedStatus, region, fold)
    ensures Subsequence(r, stores)
    ensures query == "" && selectedStatus == None && region == All ==> r == stores
  {
    var cs := SettingsClauses(query, selectedStatus, region, fold);
    FilterMembers(stores, cs);
    FilterIsSubsequence(stores, cs);
    assert forall s :: HoldsAll(cs, s) <==> SettingsMatches(s, query, selectedStatus, region, fold) by {
      forall s ensures HoldsAll(cs, s) <==> SettingsMatches(s, query, selectedStatus, region, fold) {
        assert HoldsAll(cs, s) <==> Holds(cs[0], s) && Holds(cs[1], s) && Holds(cs[2], s);
        StoreSearchMeaning(s, query, fold);
      }
    }
    assert query == "" && selectedStatus == None && region == All ==> Filter(stores, cs) == stores by {
      if query == "" && selectedStatus == None && region == All { FilterVacuous(stores, cs); }
    }
    Filter(stores, cs)
  }

  /**
   * Unlike the store list, the settings page is not limited to approved
   * stores: selecting a status card shows exactly the stores with that status
   * (when no query or region narrows them), approved or not.
   */
  lemma StatusCardSelectsThatStatus(stores: seq<Store>, status: StoreStatus, fold: string -> string)
    ensures forall s ::
      (s in FilteredSettings(stores, "", StatusCards.ClickValue(status.Label()), All, fold)
      <==> s in stores && s.status == status)
  {
    LabelsAreInjective();
  }

  /** Nothing selected shows every status; the free-text matching is the store list's, over all stores. */
  lemma SettingsExtendsOperating(stores: seq<Store>, query: string, region: string, fold: string -> string)
    ensures forall s :: s in FilteredStores(stores, query, "", region, fold) ==> s in FilteredSettings(stores, query, None, region, fold)
    ensures forall s ::
      (s in FilteredSettings(stores, query, None, region, fold) && s.status == Approved
      ==> s in FilteredStores(stores, query, "", region, fold))
  {
  }

  // ------------------------------------------------------------------ page

  /**
   * The settings page's state: the free-text box (draft and active), the
   * region and period drafts, the selected status card and the applied region.
   */
  class StoreSettingsPage {
    var nlSearch: string
    var activeNlSearch: string
    var regionFilter: string
    var periodFilter: string
    var selectedStatus: Option<string>
    var searchRegion: string
    const stores: seq<Store>
    const fold: string -> string

    constructor (stores: seq<Store>, fold: string -> string)
      ensures nlSearch == "" && activeNlSearch == "" && regionFilter == All && periodFilter == "전체 기간"
      ensures selectedStatus == None && searchRegion == All
      ensures this.stores == stores && this.fold == fold && View() == stores
    {
      nlSearch := "";
      activeNlSearch := "";
      regionFilter := All;
      periodFilter := "전체 기간";
      selectedStatus := None;
      searchRegion := All;
      this.stores := stores;
      this.fold := fold;
    }

    function View(): seq<Store>
      reads this
    {
      FilteredSettings(stores, activeNlSearch, selectedStatus, searchRegion, fold)
    }

    /** `handleNlSearch`: the searched value becomes the active query. */
    method NlSearch(value: string)
      modifies this
      ensures activeNlSearch == value && nlSearch == old(nlSearch)
      ensures regionFilter == old(regionFilter) && periodFilter == old(periodFilter)
      ensures selectedStatus == old(selectedStatus) && searchRegion == old(searchRegion)
    {
      activeNlSearch := value;
    }

    method SetRegionFilter(value: string)
      modifies this
      ensures regionFilter == value && periodFilter == old(periodFilter)
      ensures nlSearch == old(nlSearch) && activeNlSearch == old(activeNlSearch)
      ensures selectedStatus == old(selectedStatus) && searchRegion == old(searchRegion)
      ensures View() == old(View())
    {
      regionFilter := value;
    }

    /** The period draft feeds no condition: changing it never changes the table. */
    method SetPeriodFilter(value: string)
      modifies this
      ensures periodFilter == value && regionFilter == old(regionFilter)
      ensures nlSearch == old(nlSearch) && activeNlSearch == old(activeNlSearch)
      ensures selectedStatus == old(selectedStatus) && searchRegion == old(searchRegion)
      ensures View() == old(View())
    {
      periodFilter := value;
    }

    /** `handleSearch`: copy the region draft only. */
    method Search()
      modifies this
      ensures searchRegion == regionFilter
      ensures regionFilter == old(regionFilter) && periodFilter == old(periodFilter)
      ensures nlSearch == old(nlSearch) && activeNlSearch == old(activeNlSearch)
      ensures selectedStatus == old(selectedStatus)
      ensures View() == FilteredSettings(stores, old(activeNlSearch), old(selectedStatus), old(regionFilter), fold)
    {
      searchRegion := regionFilter;
    }

    /** A click on a status card selects its status, or nothing for 전체; the card is then highlighted. */
    method ClickCard(title: string)
      modifies this
      ensures selectedStatus == StatusCards.ClickValue(title)
      ensures StatusCards.Highlighted(selectedStatus, title)
      ensures nlSearch == old(nlSearch) && activeNlSearch == old(activeNlSearch)
      ensures regionFilter == old(regionFilter) && periodFilter == old(periodFilter) && searchRegion == old(searchRegion)
    {
      selectedStatus := StatusCards.ClickValue(title);
    }
  }
}
