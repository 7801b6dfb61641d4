/**
 * Coupon management: the searched and status-filtered list, the customer
 * picker of the issue form, issuing, extending and deleting a coupon, the
 * buttons offered per coupon and the statistics cards.
 */
module Coupons {
  import opened Wrappers
  import opened Text
  import opened Types
  import opened Filtering

  // ------------------------------------------------------------- the list

  /** The search clause over customer name, phone, code and coupon name; the query is always lower-cased. */
  function CouponSearch(searchText: string, fold: string -> string): Clause<Coupon> {
    FreeText(searchText, [
      Probe((c: Coupon) => Some(c.customerName), true, true),
      Probe((c: Coupon) => Some(c.customerPhone), false, true),
      Probe((c: Coupon) => Some(c.code), true, true),
      Probe((c: Coupon) => Some(c.name), true, true)], fold)
  }

  function CouponClauses(searchText: string, statusFilter: string, fold: string -> string): seq<Clause<Coupon>> {
    [CouponSearch(searchText, fold), Exact((c: Coupon) => c.status.Label(), statusFilter)]
  }

  /**
   * The condition of `filteredCoupons`, written out: no text or a text found
   * in one of the fields (the phone itself is not lower-cased), and the
   * sentinel or an equal status.
   */
  predicate CouponMatches(c: Coupon, searchText: string, statusFilter: string, fold: string -> string) {
    var q := fold(searchText);
    && (searchText == ""
        || Contains(fold(c.customerName), q) || Contains(c.customerPhone, q)
        || Contains(fold(c.code), q) || Contains(fold(c.name), q))
    && (statusFilter == All || c.status.Label() == statusFilter)
  }

  lemma CouponClausesMeaning(c: Coupon, searchText: string, statusFilter: string, fold: string -> string)
    ensures HoldsAll(CouponClauses(searchText, statusFilter, fold), c) <==> CouponMatches(c, searchText, statusFilter, fold)
  {
    var cs := CouponClauses(searchText, statusFilter, fold);
    var ps := cs[0].probes;
    assert HoldsAll(cs, c) <==> Holds(cs[0], c) && Holds(cs[1], c);
    if searchText != "" && Holds(cs[0], c) {
      var i :| 0 <= i < |ps| && ProbeMatches(ps[i], c, searchText, fold);
      assert i == 0 || i == 1 || i == 2 || i == 3;
    }
    if searchText != "" && CouponMatches(c, searchText, statusFilter, fold) {
      var q := fold(searchText);
      if Contains(fold(c.customerName), q) { assert ProbeMatches(ps[0], c, searchText, fold); }
      else if Contains(c.customerPhone, q) { assert ProbeMatches(ps[1], c, searchText, fold); }
      else if Contains(fold(c.code), q) { assert ProbeMatches(ps[2], c, searchText, fold); }
      else { assert ProbeMatches(ps[3], c, searchText, fold); }
    }
  }

  /** `filteredCoupons`: the coupons that match, in list order; no text and the sentinel keep them all. */
  function FilteredCoupons(coupons: seq<Coupon>, searchText: string, statusFilter: string, fold: string -> string): (r: seq<Coupon>)
    ensures forall c :: c in r <==> c in coupons && CouponMatches(c, searchText, statusFilter, fold)
    ensures Subsequence(r, coupons)
    ensures searchText == "" && statusFilter == All ==> r == coupons
  {
    var cs := CouponClauses(searchText, statusFilter, fold);
    FilterMembers(coupons, cs);
    FilterIsSubsequence(coupons, cs);
    assert forall c :: HoldsAll(cs, c) <==> CouponMatches(c, searchText, statusFilter, fold) by {
      forall c ensures HoldsAll(cs, c) <==> CouponMatches(c, searchText, statusFilter, fold) {
        CouponClausesMeaning(c, searchText, statusFilter, fold);
      }
    }
    assert searchText == "" && statusFilter == All ==> Filter(coupons, cs) == coupons by {
      if searchText == "" && statusFilter == All { FilterVacuous(coupons, cs); }
    }
    Filter(coupons, cs)
  }

  // ------------------------------------------------------- customer picker

  /** The picker's condition: the lower-cased nickname holds the lower-cased text, or the phone holds the raw text. */
  predicate PickerMatches(c: Customer, text: string, fold: string -> string) {
    Contains(fold(c.nickname), fold(text)) || Contains(c.phone, text)
  }

  function PickerClause(text: string, fold: string -> string): Clause<Customer> {
    FreeText(text, [
      Probe((c: Customer) => Some(c.nickname), true, true),
      Probe((c: Customer) => Some(c.phone), false, false)], fold)
  }

  lemma PickerClauseMeaning(c: Customer, text: string, fold: string -> string)
    requires text != ""
    ensures HoldsAll([PickerClause(text, fold)], c) <==> PickerMatches(c, text, fold)
  {
    var ps := PickerClause(text, fold).probes;
    HoldsOne(PickerClause(text, fold), c);
    if Holds(PickerClause(text, fold), c) {
      var i :| 0 <= i < |ps| && ProbeMatches(ps[i], c, text, fold);
      assert i == 0 || i == 1;
    }
    if Contains(fold(c.nickname), fold(text)) {
      assert ProbeMatches(ps[0], c, text, fold);
    } else if Contains(c.phone, text) {
      assert ProbeMatches(ps[1], c, text, fold);
    }
  }

  /** All customers the picker's text matches, in list order. */
  function PickerCandidates(customers: seq<Customer>, text: string, fold: string -> string): (r: seq<Customer>)
    requires text != ""
    ensures forall c :: c in r <==> c in customers && PickerMatches(c, text, fold)
    ensures Subsequence(r, customers)
  {
    var cs := [PickerClause(text, fold)];
    FilterMembers(customers, cs);
    FilterIsSubsequence(customers, cs);
    assert forall c :: HoldsAll(cs, c) <==> PickerMatches(c, text, fold) by {
      forall c ensures HoldsAll(cs, c) <==> PickerMatches(c, text, fold) {
        PickerClauseMeaning(c, text, fold);
      }
    }
    Filter(customers, cs)
  }

  /** The most customers the picker lists. */
  const PickerLimit: nat := 5

  /**
   * `searchedCustomers`: nothing for an empty text, otherwise the first five
   * matching customers in list order.
   */
  function PickCustomers(customers: seq<Customer>, text: string, fold: string -> string): (r: seq<Customer>)
    ensures text == "" ==> r == []
    ensures |r| <= PickerLimit
    ensures Subsequence(r, customers)
    ensures forall c :: c in r ==> c in customers && PickerMatches(c, text, fold)
    ensures text != "" ==> var all := PickerCandidates(customers, text, fold);
      |r| == Min(PickerLimit, |all|) && r == all[..|r|]
  {
    if text == "" then []
    else
      var all := PickerCandidates(customers, text, fold);
      var r := Prefix(all, PickerLimit);
      PrefixIsSubsequence(all, |r|);
      SubsequenceTransitive(r, all, customers);
      SubsequenceMembers(r, all);
      r
  }

  function Min(a: int, b: int): int {
    if a <= b then a else b
  }

  // ------------------------------------------------- issue, extend, delete

  /** The fields the issue form supplies. */
  datatype IssueForm = IssueForm(name: string, discount: int, customerName: string, customerPhone: string, expiresAt: string)

  /** The coupon `handleIssueCoupon` builds; id, code and issue date come from the clock. */
  function NewCoupon(id: string, code: string, issuedAt: string, f: IssueForm): Coupon {
    Coupon(id, code, f.name, f.discount, f.customerName, f.customerPhone, issuedAt, f.expiresAt, None, Usable)
  }

  /** Issue: the new coupon goes in front; the rest of the list is unchanged. */
  function Issue(coupons: seq<Coupon>, c: Coupon): (r: seq<Coupon>)
    ensures |r| == |coupons| + 1 && r[0] == c && r[1..] == coupons
  {
    [c] + coupons
  }

  /** `handleExtendSubmit`: the coupons with the selected id take the new expiry date; nothing else changes. */
  function Extend(coupons: seq<Coupon>, id: string, newExpiry: string): (r: seq<Coupon>)
    ensures |r| == |coupons|
    ensures forall k :: 0 <= k < |r| ==> r[k].(expiresAt := coupons[k].expiresAt) == coupons[k]
    ensures forall k :: 0 <= k < |r| ==> r[k].expiresAt == if coupons[k].id == id then newExpiry else coupons[k].expiresAt
    decreases |coupons|
  {
    if coupons == [] then []
    else [if coupons[0].id == id then coupons[0].(expiresAt := newExpiry) else coupons[0]]
         + Extend(coupons[1..], id, newExpiry)
  }

  /** `handleDelete`: the coupons with the id become 삭제; the list keeps its length and every other field. */
  function Delete(coupons: seq<Coupon>, id: string): (r: seq<Coupon>)
    ensures |r| == |coupons|
    ensures forall k :: 0 <= k < |r| ==> r[k].(status := coupons[k].status) == coupons[k]
    ensures forall k :: 0 <= k < |r| ==> r[k].status == if coupons[k].id == id then Removed else coupons[k].status
    decreases |coupons|
  {
    if coupons == [] then []
    else [if coupons[0].id == id then coupons[0].(status := Removed) else coupons[0]]
         + Delete(coupons[1..], id)
  }

  // ----------------------------------------------------- offered actions

  datatype CouponAction = ExtendAction | DeleteAction

  /** The buttons of the 관리 column: both for a 사용가능 coupon, none otherwise. */
  function CouponActions(c: Coupon): (r: set<CouponAction>)
    ensures ExtendAction in r <==> c.status.Label() == "사용가능"
    ensures DeleteAction in r <==> c.status.Label() == "사용가능"
  {
    if c.status == Usable then {ExtendAction, DeleteAction} else {}
  }

  /** After a delete, no coupon with that id offers any action. */
  lemma DeletedCouponsOfferNothing(coupons: seq<Coupon>, id: string)
    ensures forall k :: 0 <= k < |coupons| && coupons[k].id == id ==> CouponActions(Delete(coupons, id)[k]) == {}
  {
  }

  // ------------------------------------------------------------ statistics

  /** The statistics cards. */
  datatype CouponStats = CouponStats(available: nat, used: nat, expired: nat, totalDiscount: int)

  /** The number of coupons with one status (`filter` on the status, then `length`). */
  function CountStatus(coupons: seq<Coupon>, s: CouponStatus): (n: nat)
    ensures n <= |coupons|
    ensures n == 0 <==> forall c :: c in coupons ==> c.status != s
    decreases |coupons|
  {
    if coupons == [] then 0
    else
      assert forall c :: c in coupons <==> c == coupons[0] || c in coupons[1..] by {
        assert coupons == [coupons[0]] + coupons[1..];
      }
      (if coupons[0].status == s then 1 else 0) + CountStatus(coupons[1..], s)
  }

  function SumDiscount(coupons: seq<Coupon>): int
    decreases |coupons|
  {
    if coupons == [] then 0 else coupons[0].discount + SumDiscount(coupons[1..])
  }

  /** The discounts of the 사용완료 coupons added up (`filter` on the status, then `reduce`). */
  function RedeemedDiscount(coupons: seq<Coupon>): int
    decreases |coupons|
  {
    if coupons == [] then 0
    else (if coupons[0].status == Redeemed then coupons[0].discount else 0) + RedeemedDiscount(coupons[1..])
  }

  /** `stats`: counts of 사용가능, 사용완료 and 만료, and the discounts of the 사용완료 coupons added up. */
  function Stats(coupons: seq<Coupon>): CouponStats {
    CouponStats(
      CountStatus(coupons, Usable), CountStatus(coupons, Redeemed), CountStatus(coupons, Expired),
      RedeemedDiscount(coupons))
  }

  /** The four statistics of a non-empty list: what its first coupon adds to those of the rest. */
  lemma StatsUncons(a: seq<Coupon>)
    requires a != []
    ensures var before, after := Stats(a[1..]), Stats(a);
      && after.available == before.available + (if a[0].status == Usable then 1 else 0)
      && after.used == before.used + (if a[0].status == Redeemed then 1 else 0)
      && after.expired == before.expired + (if a[0].status == Expired then 1 else 0)
      && after.totalDiscount == before.totalDiscount + (if a[0].status == Redeemed then a[0].discount else 0)
  {
  }

  /** The four statistics of a list with one more coupon in front. */
  lemma StatsCons(c: Coupon, coupons: seq<Coupon>)
    ensures var before, after := Stats(coupons), Stats([c] + coupons);
      && after.available == before.available + (if c.status == Usable then 1 else 0)
      && after.used == before.used + (if c.status == Redeemed then 1 else 0)
      && after.expired == before.expired + (if c.status == Expired then 1 else 0)
      && after.totalDiscount == before.totalDiscount + (if c.status == Redeemed then c.discount else 0)
  {
    assert ([c] + coupons)[0] == c && ([c] + coupons)[1..] == coupons;
    StatsUncons([c] + coupons);
  }

  /** Every coupon has exactly one of the four statuses, so the three cards and the deleted ones add up to the list. */
  lemma {:induction false} StatsPartition(coupons: seq<Coupon>)
    ensures Stats(coupons).available + Stats(coupons).used + Stats(coupons).expired
            + CountStatus(coupons, Removed) == |coupons|
    decreases |coupons|
  {
    if coupons != [] {
      StatsPartition(coupons[1..]);
      StatsUncons(coupons);
    }
  }

  /** With non-negative discounts, the total lies between 0 and the discounts of all coupons added up. */
  lemma {:induction false} TotalDiscountBounds(coupons: seq<Coupon>)
    requires forall k :: 0 <= k < |coupons| ==> coupons[k].discount >= 0
    ensures 0 <= Stats(coupons).totalDiscount <= SumDiscount(coupons)
    decreases |coupons|
  {
    if coupons != [] {
      TotalDiscountBounds(coupons[1..]);
    }
  }

  /** Issuing a new coupon adds one 사용가능 coupon and leaves the other cards as they were. */
  lemma IssueStats(coupons: seq<Coupon>, id: string, code: string, issuedAt: string, f: IssueForm)
    ensures var before, after := Stats(coupons), Stats(Issue(coupons, NewCoupon(id, code, issuedAt, f)));
      after == before.(available := before.available + 1)
  {
    StatsCons(NewCoupon(id, code, issuedAt, f), coupons);
  }

  /** The statistics read only the status and the discount of each coupon. */
  lemma {:induction false} StatsByStatusAndDiscount(a: seq<Coupon>, b: seq<Coupon>)
    requires |a| == |b|
    requires forall k :: 0 <= k < |a| ==> a[k].status == b[k].status && a[k].discount == b[k].discount
    ensures Stats(a) == Stats(b)
    decreases |a|
  {
    if a != [] {
      var a', b' := a[1..], b[1..];
      forall k | 0 <= k < |a'| ensures a'[k].status == b'[k].status && a'[k].discount == b'[k].discount {
        assert a'[k] == a[k + 1] && b'[k] == b[k + 1];
      }
      StatsByStatusAndDiscount(a', b');
      StatsUncons(a);
      StatsUncons(b);
      assert Stats(a).available == Stats(b).available && Stats(a).used == Stats(b).used;
      assert Stats(a).expired == Stats(b).expired && Stats(a).totalDiscount == Stats(b).totalDiscount;
    }
  }

  /** Extending an expiry date changes none of the statistics. */
  lemma ExtendKeepsStats(coupons: seq<Coupon>, id: string, newExpiry: string)
    ensures Stats(Extend(coupons, id, newExpiry)) == Stats(coupons)
  {
    var r := Extend(coupons, id, newExpiry);
    forall k | 0 <= k < |r| ensures r[k].status == coupons[k].status && r[k].discount == coupons[k].discount {
      assert r[k].(expiresAt := coupons[k].expiresAt) == coupons[k];
    }
    StatsByStatusAndDiscount(r, coupons);
  }

  /**
   * Deleting, as offered (every coupon with the id is 사용가능), lowers the
   * 사용가능 count by the number of those coupons and leaves the other cards.
   */
  lemma {:induction false} DeleteStats(coupons: seq<Coupon>, id: string)
    requires forall k :: 0 <= k < |coupons| && coupons[k].id == id ==> coupons[k].status == Usable
    ensures var before, after := Stats(coupons), Stats(Delete(coupons, id));
      && after.used == before.used && after.expired == before.expired
      && after.totalDiscount == before.totalDiscount
      && after.available + CountId(coupons, id) == before.available
    decreases |coupons|
  {
    if coupons != [] {
      DeleteStats(coupons[1..], id);
      var r := Delete(coupons, id);
      assert r[0] == if coupons[0].id == id then coupons[0].(status := Removed) else coupons[0];
      assert r[1..] == Delete(coupons[1..], id);
      StatsUncons(coupons);
      StatsUncons(r);
    }
  }

  /** The number of coupons carrying an id. */
  function CountId(coupons: seq<Coupon>, id: string): nat
    decreases |coupons|
  {
    if coupons == [] then 0 else (if coupons[0].id == id then 1 else 0) + CountId(coupons[1..], id)
  }

  // ------------------------------------------------------------------ page

  /** The coupon page's state. `customers` is the list the picker searches. */
  class CouponsPage {
    var coupons: seq<Coupon>
    var searchText: string
    var statusFilter: string
    var customerSearchText: string
    var selectedCouponId: Option<string>
    const customers: seq<Customer>
    const fold: string -> string

    constructor (initial: seq<Coupon>, customers: seq<Customer>, fold: string -> string)
      ensures coupons == initial && searchText == "" && statusFilter == All
      ensures customerSearchText == "" && selectedCouponId == None
      ensures this.customers == customers && this.fold == fold
    {
      coupons := initial;
      searchText := "";
      statusFilter := All;
      customerSearchText := "";
      selectedCouponId := None;
      this.customers := customers;
      this.fold := fold;
    }

    function View(): seq<Coupon>
      reads this
    {
      FilteredCoupons(coupons, searchText, statusFilter, fold)
    }

    function Picker(): seq<Customer>
      reads this
    {
      PickCustomers(customers, customerSearchText, fold)
    }

    /** `onSearch` of the search box. */
    method Search(value: string)
      modifies this
      ensures searchText == value
      ensures coupons == old(coupons) && statusFilter == old(statusFilter)
      ensures customerSearchText == old(customerSearchText) && selectedCouponId == old(selectedCouponId)
    {
      searchText := value;
    }

    /** `onChange` of the search box: clearing the box clears the search; typing alone does not search. */
    method SearchInputChanged(value: string)
      modifies this
      ensures searchText == if value == "" then "" else old(searchText)
      ensures coupons == old(coupons) && statusFilter == old(statusFilter)
      ensures customerSearchText == old(customerSearchText) && selectedCouponId == old(selectedCouponId)
    {
      if value == "" {
        searchText := "";
      }
    }

    method SetStatusFilter(value: string)
      modifies this
      ensures statusFilter == value
      ensures coupons == old(coupons) && searchText == old(searchText)
      ensures customerSearchText == old(customerSearchText) && selectedCouponId == old(selectedCouponId)
    {
      statusFilter := value;
    }

    method SetCustomerSearchText(value: string)
      modifies this
      ensures customerSearchText == value
      ensures coupons == old(coupons) && searchText == old(searchText) && statusFilter == old(statusFilter)
      ensures selectedCouponId == old(selectedCouponId)
    {
      customerSearchText := value;
    }

    /** `handleIssue` and `handleSelectCustomer` both empty the picker's text. */
    method ClearCustomerSearch()
      modifies this
      ensures customerSearchText == "" && Picker() == []
      ensures coupons == old(coupons) && searchText == old(searchText) && statusFilter == old(statusFilter)
      ensures selectedCouponId == old(selectedCouponId)
    {
      customerSearchText := "";
    }

    method IssueCoupon(id: string, code: string, issuedAt: string, form: IssueForm)
      modifies this
      ensures coupons == Issue(old(coupons), NewCoupon(id, code, issuedAt, form))
      ensures searchText == old(searchText) && statusFilter == old(statusFilter)
      ensures customerSearchText == old(customerSearchText) && selectedCouponId == old(selectedCouponId)
    {
      coupons := Issue(coupons, NewCoupon(id, code, issuedAt, form));
    }

    /** `handleExtend`: remember the coupon being extended. */
    method OpenExtend(c: Coupon)
      modifies this
      ensures selectedCouponId == Some(c.id)
      ensures coupons == old(coupons) && searchText == old(searchText) && statusFilter == old(statusFilter)
      ensures customerSearchText == old(customerSearchText)
    {
      selectedCouponId := Some(c.id);
    }

    /** `handleExtendSubmit`: without a selected coupon nothing happens. */
    method ExtendSubmit(newExpiry: string)
      modifies this
      ensures coupons == if old(selectedCouponId).Some? then Extend(old(coupons), old(selectedCouponId).value, newExpiry) else old(coupons)
      ensures searchText == old(searchText) && statusFilter == old(statusFilter)
      ensures customerSearchText == old(customerSearchText) && selectedCouponId == old(selectedCouponId)
    {
      if selectedCouponId.Some? {
        coupons := Extend(coupons, selectedCouponId.value, newExpiry);
      }
    }

    /** The confirmed `handleDelete`. */
    method DeleteCoupon(id: string)
      modifies this
      ensures coupons == Delete(old(coupons), id)
      ensures searchText == old(searchText) && statusFilter == old(statusFilter)
      ensures customerSearchText == old(customerSearchText) && selectedCouponId == old(selectedCouponId)
    {
      coupons := Delete(coupons, id);
    }
  }
}
