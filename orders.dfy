/**
 * Order lookup: the filter over phone, store and status, the page's draft
 * inputs and the applied search they are copied into, the cancel buttons of
 * the detail dialog and the line subtotal.
 */
module Orders {
  import opened Wrappers
  import opened Text
  import opened Types
  import opened Filtering

  function OrderClauses(phone: string, store: string, status: string): seq<Clause<Order>> {
    [Substring((o: Order) => o.customerPhone, phone),
     Substring((o: Order) => o.storeName, store),
     Exact((o: Order) => o.status.Label(), status)]
  }

  /** The condition of `filteredOrders`, written out. */
  predicate OrderMatches(o: Order, phone: string, store: string, status: string) {
    && (phone == "" || Contains(o.customerPhone, phone))
    && (store == "" || Contains(o.storeName, store))
    && (status == All || o.status.Label() == status)
  }

  /** `filteredOrders`: the orders meeting all three applied conditions, in list order. */
  function FilteredOrders(orders: seq<Order>, phone: string, store: string, status: string): (r: seq<Order>)
    ensures forall o :: o in r <==> o in orders && OrderMatches(o, phone, store, status)
    ensures Subsequence(r, orders)
    ensures phone == "" && store == "" && status == All ==> r == orders
  {
    var cs := OrderClauses(phone, store, status);
    FilterMembers(orders, cs);
    FilterIsSubsequence(orders, cs);
    assert forall o :: HoldsAll(cs, o) <==> Holds(cs[0], o) && Holds(cs[1], o) && Holds(cs[2], o);
    assert phone == "" && store == "" && status == All ==> Filter(orders, cs) == orders by {
      if phone == "" && store == "" && status == All { FilterVacuous(orders, cs); }
    }
    Filter(orders, cs)
  }

  /** Narrowing: a non-empty phone condition keeps only orders a search without it keeps too. */
  lemma PhoneNarrows(orders: seq<Order>, phone: string, store: string, status: string)
    ensures forall o :: o in FilteredOrders(orders, phone, store, status) ==> o in FilteredOrders(orders, "", store, status)
  {
  }

  // --------------------------------------------------------- cancel buttons

  datatype CancelKind = PartialCancel | FullCancel

  /** The detail dialog's cancel buttons: both while the open order is not cancelled, none otherwise. */
  function CancelButtons(selected: Option<Order>): (r: set<CancelKind>)
    ensures r == {} || r == {PartialCancel, FullCancel}
    ensures PartialCancel in r <==> selected.Some? && selected.value.status.Label() !in CancellationLabels
  {
    if selected.Some? && !selected.value.status.IsCancellation() then {PartialCancel, FullCancel} else {}
  }

  // ---------------------------------------------------------- line subtotal

  /** The 소계 column: quantity times unit price. */
  function LineSubtotal(item: OrderItem): int {
    item.quantity * item.price
  }

  // ------------------------------------------------------------------ page

  /**
   * The value of the date-range picker: either end may be cleared, and the
   * whole range may be `null`. Dates are opaque strings.
   */
  datatype DateRange = DateRange(start: Option<string>, end: Option<string>)

  /**
   * The order page's state: four draft inputs (the date range among them)
   * and the three applied conditions; the date range is never applied.
   */
  class OrdersPage {
    var phoneFilter: string
    var storeFilter: string
    var statusFilter: string
    var dateRange: Option<DateRange>
    var searchPhone: string
    var searchStore: string
    var searchStatus: string
    const orders: seq<Order>

    /** Every input starts empty or on the sentinel, so the page starts with every order. */
    constructor (orders: seq<Order>)
      ensures phoneFilter == "" && storeFilter == "" && statusFilter == All && dateRange == None
      ensures searchPhone == "" && searchStore == "" && searchStatus == All
      ensures this.orders == orders && View() == orders
    {
      phoneFilter := "";
      storeFilter := "";
      statusFilter := All;
      dateRange := None;
      searchPhone := "";
      searchStore := "";
      searchStatus := All;
      this.orders := orders;
    }

    /** The table reads only the applied conditions. */
    function View(): seq<Order>
      reads this
    {
      FilteredOrders(orders, searchPhone, searchStore, searchStatus)
    }

    method SetPhoneFilter(value: string)
      modifies this
      ensures phoneFilter == value && storeFilter == old(storeFilter) && statusFilter == old(statusFilter)
      ensures searchPhone == old(searchPhone) && searchStore == old(searchStore) && searchStatus == old(searchStatus)
      ensures dateRange == old(dateRange) && View() == old(View())
    {
      phoneFilter := value;
    }

    method SetStoreFilter(value: string)
      modifies this
      ensures storeFilter == value && phoneFilter == old(phoneFilter) && statusFilter == old(statusFilter)
      ensures searchPhone == old(searchPhone) && searchStore == old(searchStore) && searchStatus == old(searchStatus)
      ensures dateRange == old(dateRange) && View() == old(View())
    {
      storeFilter := value;
    }

    method SetStatusFilter(value: string)
      modifies this
      ensures statusFilter == value && phoneFilter == old(phoneFilter) && storeFilter == old(storeFilter)
      ensures searchPhone == old(searchPhone) && searchStore == old(searchStore) && searchStatus == old(searchStatus)
      ensures dateRange == old(dateRange) && View() == old(View())
    {
      statusFilter := value;
    }

    /** The picker's `onChange`: the range is recorded, and no condition reads it, so the table stays. */
    method SetDateRange(value: Option<DateRange>)
      modifies this
      ensures dateRange == value
      ensures phoneFilter == old(phoneFilter) && storeFilter == old(storeFilter) && statusFilter == old(statusFilter)
      ensures searchPhone == old(searchPhone) && searchStore == old(searchStore) && searchStatus == old(searchStatus)
      ensures View() == old(View())
    {
      dateRange := value;
    }

    /** `handleSearch`: copy the phone, store and status drafts into the applied conditions. */
    method Search()
      modifies this
      ensures searchPhone == phoneFilter && searchStore == storeFilter && searchStatus == statusFilter
      ensures phoneFilter == old(phoneFilter) && storeFilter == old(storeFilter) && statusFilter == old(statusFilter)
      ensures dateRange == old(dateRange)
      ensures View() == FilteredOrders(orders, old(phoneFilter), old(storeFilter), old(statusFilter))
    {
      searchPhone := phoneFilter;
      searchStore := storeFilter;
      searchStatus := statusFilter;
    }

    /** `handleKeyPress`: Enter searches; any other key changes nothing. */
    method KeyPress(key: string)
      modifies this
      ensures key == "Enter" ==> searchPhone == phoneFilter && searchStore == storeFilter && searchStatus == statusFilter
      ensures key != "Enter" ==> searchPhone == old(searchPhone) && searchStore == old(searchStore) && searchStatus == old(searchStatus)
      ensures phoneFilter == old(phoneFilter) && storeFilter == old(storeFilter) && statusFilter == old(statusFilter)
      ensures dateRange == old(dateRange)
    {
      if key == "Enter" {
        Search();
      }
    }
  }
}
