/**
 * Review management: the filter over store, phone and status with its
 * draft/applied inputs, the masked phone column and the status buttons of
 * the detail dialog.
 */
module Reviews {
  import opened Wrappers
  import opened Text
  import opened Types
  import opened Filtering

  function ReviewClauses(store: string, phone: string, status: string): seq<Clause<Review>> {
    [Substring((r: Review) => r.storeName, store),
     Substring((r: Review) => r.customerPhone, phone),
     Exact((r: Review) => r.status.Label(), status)]
  }

  /** The condition of `filteredReviews`, written out. */
  predicate ReviewMatches(v: Review, store: string, phone: string, status: string) {
    && (store == "" || Contains(v.storeName, store))
    && (phone == "" || Contains(v.customerPhone, phone))
    && (status == All || v.status.Label() == status)
  }

  /** `filteredReviews`: the reviews meeting the three applied conditions, in list order. */
  function FilteredReviews(reviews: seq<Review>, store: string, phone: string, status: string): (r: seq<Review>)
    ensures forall v :: v in r <==> v in reviews && ReviewMatches(v, store, phone, status)
    ensures Subsequence(r, reviews)
    ensures store == "" && phone == "" && status == All ==> r == reviews
  {
    var cs := ReviewClauses(store, phone, status);
    FilterMembers(reviews, cs);
    FilterIsSubsequence(reviews, cs);
    assert forall v :: HoldsAll(cs, v) <==> Holds(cs[0], v) && Holds(cs[1], v) && Holds(cs[2], v);
    assert store == "" && phone == "" && status == All ==> Filter(reviews, cs) == reviews by {
      if store == "" && phone == "" && status == All { FilterVacuous(reviews, cs); }
    }
    Filter(reviews, cs)
  }

  // --------------------------------------------------------- phone masking

  /** `\d` without the Unicode flag: an ASCII digit. */
  predicate IsDigit(c: char) {
    '0' <= c <= '9'
  }

  /** Eleven ASCII digits start at `i`: a match of `(\d{3})(\d{4})(\d{4})`. */
  predicate DigitRunAt(s: string, i: int) {
    0 <= i && i + 11 <= |s| && forall k :: i <= k < i + 11 ==> IsDigit(s[k])
  }

  /** The leftmost position at or after `from` where a run starts, as the regular expression scans. */
  function FindRun(s: string, from: nat): (r: Option<nat>)
    ensures r.Some? ==> (from <= r.value && DigitRunAt(s, r.value)
      && forall j :: from <= j < r.value ==> !DigitRunAt(s, j))
    ensures r.None? ==> forall j :: from <= j ==> !DigitRunAt(s, j)
    decreases |s| - from
  {
    if from + 11 > |s| then None
    else if DigitRunAt(s, from) then Some(from)
    else FindRun(s, from + 1)
  }

  /**
   * The 고객정보 column: `replace` without the global flag rewrites the first
   * run only, to its first three digits, `-****-` and its last four digits.
   */
  function MaskPhone(s: string): (r: string)
    ensures FindRun(s, 0).None? ==> r == s
    ensures FindRun(s, 0).Some? ==> var i := FindRun(s, 0).value;
      && |r| == |s| + 2
      && r[..i + 3] == s[..i + 3]
      && r[i + 3..i + 9] == "-****-"
      && r[i + 9..] == s[i + 7..]
  {
    match FindRun(s, 0)
    case None => s
    case Some(i) => s[..i] + s[i..i + 3] + "-****-" + s[i + 7..i + 11] + s[i + 11..]
  }

  /** A string without eleven consecutive digits is shown as it is. */
  lemma NoRunUnchanged(s: string)
    requires forall i :: !DigitRunAt(s, i)
    ensures MaskPhone(s) == s
  {
  }

  /** Masking hides the four middle digits of the first run behind `****` and keeps every other character, in order. */
  lemma MaskHidesMiddle(s: string)
    requires FindRun(s, 0).Some?
    ensures var i := FindRun(s, 0).value;
      var r := MaskPhone(s);
      && r[i + 4..i + 8] == "****"
      && r[..i + 3] + r[i + 9..] == s[..i + 3] + s[i + 7..]
      && r[i + 3] == '-' && r[i + 8] == '-'
  {
    var i := FindRun(s, 0).value;
    var r := MaskPhone(s);
    assert r[i + 4..i + 8] == r[i + 3..i + 9][1..5];
    assert r[i + 3] == r[i + 3..i + 9][0];
    assert r[i + 8] == r[i + 3..i + 9][5];
  }

  /** 01012345678 is shown as 010-****-5678. */
  lemma MaskExample()
    ensures MaskPhone("01012345678") == "010-****-5678"
  {
    assert DigitRunAt("01012345678", 0);
  }

  /** A phone already written with hyphens has no eleven-digit run and is shown unchanged. */
  lemma HyphenatedPhoneUnchanged()
    ensures MaskPhone("010-1234-5678") == "010-1234-5678"
  {
    var s := "010-1234-5678";
    forall i ensures !DigitRunAt(s, i) {
      if 0 <= i && i + 11 <= |s| {
        assert !IsDigit(s[8]) && i <= 8 < i + 11;
      }
    }
  }

  // -------------------------------------------------------- status buttons

  datatype ReviewAction = Hide | Unhide | DeleteReview

  /**
   * The detail dialog's buttons. With no review selected `selectedReview?.status`
   * is undefined, which differs from 삭제, so only the delete button's test passes.
   */
  function ReviewActions(selected: Option<Review>): (r: set<ReviewAction>)
    ensures Hide in r <==> selected.Some? && selected.value.status.Label() == "정상"
    ensures Unhide in r <==> selected.Some? && selected.value.status.Label() == "숨김"
    ensures DeleteReview in r <==> selected.None? || selected.value.status.Label() != "삭제"
  {
    var status := if selected.Some? then Some(selected.value.status) else None;
    (if status == Some(Normal) then {Hide} else {})
    + (if status == Some(Hidden) then {Unhide} else {})
    + (if status != Some(Deleted) then {DeleteReview} else {})
  }

  /** For a selected review, hiding and unhiding are never offered together, and a deleted review offers nothing. */
  lemma ReviewActionsExclusive(v: Review)
    ensures !(Hide in ReviewActions(Some(v)) && Unhide in ReviewActions(Some(v)))
    ensures v.status == Deleted <==> ReviewActions(Some(v)) == {}
    ensures v.status == Normal ==> ReviewActions(Some(v)) == {Hide, DeleteReview}
    ensures v.status == Hidden ==> ReviewActions(Some(v)) == {Unhide, DeleteReview}
  {
    if v.status != Deleted {
      assert DeleteReview in ReviewActions(Some(v));
    }
  }

  // ------------------------------------------------------------------ page

  /** The review page's state: three draft inputs and the three applied conditions. */
  class ReviewsPage {
    var storeFilter: string
    var phoneFilter: string
    var statusFilter: string
    var searchStore: string
    var searchPhone: string
    var searchStatus: string
    const reviews: seq<Review>

    constructor (reviews: seq<Review>)
      ensures storeFilter == "" && phoneFilter == "" && statusFilter == All
      ensures searchStore == "" && searchPhone == "" && searchStatus == All
      ensures this.reviews == reviews && View() == reviews
    {
      storeFilter := "";
      phoneFilter := "";
      statusFilter := All;
      searchStore := "";
      searchPhone := "";
      searchStatus := All;
      this.reviews := reviews;
    }

    function View(): seq<Review>
      reads this
    {
      FilteredReviews(reviews, searchStore, searchPhone, searchStatus)
    }

    method SetStoreFilter(value: string)
      modifies this
      ensures storeFilter == value && phoneFilter == old(phoneFilter) && statusFilter == old(statusFilter)
      ensures searchStore == old(searchStore) && searchPhone == old(searchPhone) && searchStatus == old(searchStatus)
      ensures View() == old(View())
    {
      storeFilter := value;
    }

    method SetPhoneFilter(value: string)
      modifies this
      ensures phoneFilter == value && storeFilter == old(storeFilter) && statusFilter == old(statusFilter)
      ensures searchStore == old(searchStore) && searchPhone == old(searchPhone) && searchStatus == old(searchStatus)
      ensures View() == old(View())
    {
      phoneFilter := value;
    }

    method SetStatusFilter(value: string)
      modifies this
      ensures statusFilter == value && storeFilter == old(storeFilter) && phoneFilter == old(phoneFilter)
      ensures searchStore == old(searchStore) && searchPhone == old(searchPhone) && searchStatus == old(searchStatus)
      ensures View() == old(View())
    {
      statusFilter := value;
    }

    /** `handleSearch`: copy every draft into the applied conditions. */
    method Search()
      modifies this
      ensures searchStore == storeFilter && searchPhone == phoneFilter && searchStatus == statusFilter
      ensures storeFilter == old(storeFilter) && phoneFilter == old(phoneFilter) && statusFilter == old(statusFilter)
      ensures View() == FilteredReviews(reviews, old(storeFilter), old(phoneFilter), old(statusFilter))
    {
      searchStore := storeFilter;
      searchPhone := phoneFilter;
      searchStatus := statusFilter;
    }

    /** `handleKeyPress`: Enter searches; any other key changes nothing. */
    method KeyPress(key: string)
      modifies this
      ensures key == "Enter" ==> searchStore == storeFilter && searchPhone == phoneFilter && searchStatus == statusFilter
      ensures key != "Enter" ==> searchStore == old(searchStore) && searchPhone == old(searchPhone) && searchStatus == old(searchStatus)
      ensures storeFilter == old(storeFilter) && phoneFilter == old(phoneFilter) && statusFilter == old(statusFilter)
    {
      if key == "Enter" {
        Search();
      }
    }
  }
}
