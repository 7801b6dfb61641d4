/**
 * Reports and the blacklist: the filter over report type and status with its
 * draft/applied selections, and the buttons offered in the table and in the
 * detail dialog.
 */
module Reports {
  import opened Wrappers
  import opened Types
  import opened Filtering

  function ReportClauses(reportType: string, status: string): seq<Clause<Report>> {
    [Exact((r: Report) => r.reportType.Label(), reportType),
     Exact((r: Report) => r.status.Label(), status)]
  }

  /** `filteredReports`: each selection is the sentinel or equal to the report's value. */
  function FilteredReports(reports: seq<Report>, reportType: string, status: string): (r: seq<Report>)
    ensures forall x :: x in r <==>
      (x in reports && (reportType == All || x.reportType.Label() == reportType)
                    && (status == All || x.status.Label() == status))
    ensures Subsequence(r, reports)
    ensures reportType == All && status == All ==> r == reports
  {
    var cs := ReportClauses(reportType, status);
    FilterMembers(reports, cs);
    FilterIsSubsequence(reports, cs);
    assert forall x :: HoldsAll(cs, x) <==> Holds(cs[0], x) && Holds(cs[1], x);
    assert reportType == All && status == All ==> Filter(reports, cs) == reports by {
      if reportType == All && status == All { FilterVacuous(reports, cs); }
    }
    Filter(reports, cs)
  }

  // --------------------------------------------------------------- buttons

  datatype ReportAction = StartProcessing | Blacklist | Release

  /** The detail dialog's buttons: 처리 시작 for 접수, 블랙리스트 등록 for 처리중, 블랙리스트 해제 for 블랙. */
  function DetailActions(selected: Option<Report>): (r: set<ReportAction>)
    ensures StartProcessing in r <==> selected.Some? && selected.value.status.Label() == "접수"
    ensures Blacklist in r <==> selected.Some? && selected.value.status.Label() == "처리중"
    ensures Release in r <==> selected.Some? && selected.value.status.Label() == "블랙"
  {
    if selected.None? then {}
    else match selected.value.status
      case Received => {StartProcessing}
      case Processing => {Blacklist}
      case Blacklisted => {Release}
      case Released => {}
  }

  /** The table's 해제 button, shown next to 상세 for 블랙 reports only. */
  function TableActions(x: Report): (r: set<ReportAction>)
    ensures r == {} || r == {Release}
    ensures Release in r <==> x.status.Label() == "블랙"
  {
    if x.status == Blacklisted then {Release} else {}
  }

  /** The status each detail button names: 처리중, 블랙 and 해제. */
  function ActionTarget(a: ReportAction): ReportStatus {
    match a
    case StartProcessing => Processing
    case Blacklist => Blacklisted
    case Release => Released
  }

  /**
   * The dialog offers at most one step, and the steps chain 접수 → 처리중 → 블랙 → 해제:
   * every status but 해제 has exactly one, and the table and the dialog agree on release.
   */
  lemma DetailActionsChain(x: Report)
    ensures |DetailActions(Some(x))| <= 1
    ensures DetailActions(Some(x)) == {} <==> x.status == Released
    ensures forall a :: a in DetailActions(Some(x)) ==> ActionTarget(a) != x.status
    ensures x.status == Received ==> forall a :: a in DetailActions(Some(x)) ==> ActionTarget(a) == Processing
    ensures x.status == Processing ==> forall a :: a in DetailActions(Some(x)) ==> ActionTarget(a) == Blacklisted
    ensures x.status == Blacklisted ==> forall a :: a in DetailActions(Some(x)) ==> ActionTarget(a) == Released
    ensures (Release in TableActions(x)) <==> (Release in DetailActions(Some(x)))
  {
    if x.status == Received { assert DetailActions(Some(x)) == {StartProcessing}; }
    if x.status == Processing { assert DetailActions(Some(x)) == {Blacklist}; }
    if x.status == Blacklisted { assert DetailActions(Some(x)) == {Release}; }
  }

  /** Without a selected report the dialog has no status buttons. */
  lemma NoSelectionNoActions()
    ensures DetailActions(None) == {}
  {
  }

  // ------------------------------------------------------------------ page

  /** The report page's state: two draft selections and the two applied ones. */
  class ReportsPage {
    var typeFilter: string
    var statusFilter: string
    var searchType: string
    var searchStatus: string
    const reports: seq<Report>

    constructor (reports: seq<Report>)
      ensures typeFilter == All && statusFilter == All && searchType == All && searchStatus == All
      ensures this.reports == reports && View() == reports
    {
      typeFilter := All;
      statusFilter := All;
      searchType := All;
      searchStatus := All;
      this.reports := reports;
    }

    function View(): seq<Report>
      reads this
    {
      FilteredReports(reports, searchType, searchStatus)
    }

    method SetTypeFilter(value: string)
      modifies this
      ensures typeFilter == value && statusFilter == old(statusFilter)
      ensures searchType == old(searchType) && searchStatus == old(searchStatus)
      ensures View() == old(View())
    {
      typeFilter := value;
    }

    method SetStatusFilter(value: string)
      modifies this
      ensures statusFilter == value && typeFilter == old(typeFilter)
      ensures searchType == old(searchType) && searchStatus == old(searchStatus)
      ensures View() == old(View())
    {
      statusFilter := value;
    }

    /** `handleSearch`: copy both selections into the applied ones. */
    method Search()
      modifies this
      ensures searchType == typeFilter && searchStatus == statusFilter
      ensures typeFilter == old(typeFilter) && statusFilter == old(statusFilter)
      ensures View() == FilteredReports(reports, old(typeFilter), old(statusFilter))
    {
      searchType := typeFilter;
      searchStatus := statusFilter;
    }
  }
}
