/**
 * Customer management: the free-text search over nickname, phone, email and
 * id, the detail filter over phone and status, their draft/applied inputs,
 * and the colour band of the manner score.
 */
module Customers {
  import opened Wrappers
  import opened Text
  import opened Types
  import opened Filtering

  /** The free-text clause: lower-cased nickname and email, raw phone and id. */
  function CustomerSearch(query: string, fold: string -> string): Clause<Customer> {
    FreeText(query, [
      Probe((c: Customer) => Some(c.nickname), true, true),
      Probe((c: Customer) => Some(c.phone), false, false),
      Probe((c: Customer) => c.email, true, true),
      Probe((c: Customer) => Some(c.id), false, false)], fold)
  }

  function CustomerClauses(query: string, phone: string, status: string, fold: string -> string): seq<Clause<Customer>> {
    [CustomerSearch(query, fold),
     Substring((c: Customer) => c.phone, phone),
     Exact((c: Customer) => c.status.Label(), status)]
  }

  /** A non-empty query matches a customer when one of the four fields holds it; an absent email holds nothing. */
  predicate QueryMatches(c: Customer, query: string, fold: string -> string) {
    || Contains(fold(c.nickname), fold(query))
    || Contains(c.phone, query)
    || (c.email.Some? && Contains(fold(c.email.value), fold(query)))
    || Contains(c.id, query)
  }

  /** The condition of `filteredCustomers`, written out. */
  predicate CustomerMatches(c: Customer, query: string, phone: string, status: string, fold: string -> string) {
    && (query == "" || QueryMatches(c, query, fold))
    && (phone == "" || Contains(c.phone, phone))
    && (status == All || c.status.Label() == status)
  }

  lemma CustomerClausesMeaning(c: Customer, query: string, phone: string, status: string, fold: string -> string)
    ensures HoldsAll(CustomerClauses(query, phone, status, fold), c) <==> CustomerMatches(c, query, phone, status, fold)
  {
    var cs := CustomerClauses(query, phone, status, fold);
    var ps := cs[0].probes;
    assert HoldsAll(cs, c) <==> Holds(cs[0], c) && Holds(cs[1], c) && Holds(cs[2], c);
    if query != "" && Holds(cs[0], c) {
      var i :| 0 <= i < |ps| && ProbeMatches(ps[i], c, query, fold);
      assert i == 0 || i == 1 || i == 2 || i == 3;
    }
    if query != "" && QueryMatches(c, query, fold) {
      if Contains(fold(c.nickname), fold(query)) { assert ProbeMatches(ps[0], c, query, fold); }
      else if Contains(c.phone, query) { assert ProbeMatches(ps[1], c, query, fold); }
      else if c.email.Some? && Contains(fold(c.email.value), fold(query)) { assert ProbeMatches(ps[2], c, query, fold); }
      else { assert ProbeMatches(ps[3], c, query, fold); }
    }
  }

  /** `filteredCustomers`: the customers meeting the query and both detail conditions, in list order. */
  function FilteredCustomers(customers: seq<Customer>, query: string, phone: string, status: string, fold: string -> string): (r: seq<Customer>)
    ensures forall c :: c in r <==> c in customers && CustomerMatches(c, query, phone, status, fold)
    ensures Subsequence(r, customers)
    ensures query == "" && phone == "" && status == All ==> r == customers
  {
    var cs := CustomerClauses(query, phone, status, fold);
    FilterMembers(customers, cs);
    FilterIsSubsequence(customers, cs);
    assert forall c :: HoldsAll(cs, c) <==> CustomerMatches(c, query, phone, status, fold) by {
      forall c ensures HoldsAll(cs, c) <==> CustomerMatches(c, query, phone, status, fold) {
        CustomerClausesMeaning(c, query, phone, status, fold);
      }
    }
    assert query == "" && phone == "" && status == All ==> Filter(customers, cs) == customers by {
      if query == "" && phone == "" && status == All { FilterVacuous(customers, cs); }
    }
    Filter(customers, cs)
  }

  /** A customer without an email who matches a non-empty query matches it through nickname, phone or id. */
  lemma AbsentEmailNeverMatches(c: Customer, query: string, fold: string -> string)
    requires c.email.None? && query != ""
    ensures QueryMatches(c, query, fold) <==>
      Contains(fold(c.nickname), fold(query)) || Contains(c.phone, query) || Contains(c.id, query)
  {
  }

  // ---------------------------------------------------------- manner score

  /** The colour bands of `getMannerColor`. */
  datatype MannerBand = Green | Blue | Amber | Red
  {
    /** The stroke colour the progress bar uses. */
    function Colour(): string {
      match this
      case Green => "#52c41a"
      case Blue => "#1890ff"
      case Amber => "#faad14"
      case Red => "#ff4d4f"
    }

    /** Better bands rank higher. */
    function Rank(): nat {
      match this
      case Red => 0
      case Amber => 1
      case Blue => 2
      case Green => 3
    }
  }

  /** `getMannerColor`: 90 and above green, 70–89 blue, 50–69 amber, below 50 red. */
  function MannerColour(score: int): (b: MannerBand)
    ensures b == Green <==> score >= 90
    ensures b == Blue <==> 70 <= score < 90
    ensures b == Amber <==> 50 <= score < 70
    ensures b == Red <==> score < 50
  {
    if score >= 90 then Green
    else if score >= 70 then Blue
    else if score >= 50 then Amber
    else Red
  }

  /** A higher score never falls into a worse band. */
  lemma MannerColourMonotone(s1: int, s2: int)
    requires s1 <= s2
    ensures MannerColour(s1).Rank() <= MannerColour(s2).Rank()
  {
  }

  /** Each band is one interval: two scores in a band put everything between them in it too. */
  lemma MannerBandsContiguous(s1: int, s: int, s2: int)
    requires s1 <= s <= s2 && MannerColour(s1) == MannerColour(s2)
    ensures MannerColour(s) == MannerColour(s1)
  {
  }

  /** The default score is blue and the maximum score is green; the four colours differ. */
  lemma MannerColourFacts()
    ensures MannerColour(DefaultMannerScore) == Blue && MannerColour(MaxMannerScore) == Green
    ensures forall a: MannerBand, b: MannerBand :: a.Colour() == b.Colour() ==> a == b
  {
  }

  // ------------------------------------------------------------------ page

  /**
   * The customer page's state: the free-text box (draft and active), and the
   * detail inputs (draft and applied).
   */
  class CustomersPage {
    var nlSearch: string
    var activeNlSearch: string
    var phoneFilter: string
    var statusFilter: string
    var searchPhone: string
    var searchStatus: string
    const customers: seq<Customer>
    const fold: string -> string

    constructor (customers: seq<Customer>, fold: string -> string)
      ensures nlSearch == "" && activeNlSearch == "" && phoneFilter == "" && statusFilter == All
      ensures searchPhone == "" && searchStatus == All
      ensures this.customers == customers && this.fold == fold && View() == customers
    {
      nlSearch := "";
      activeNlSearch := "";
      phoneFilter := "";
      statusFilter := All;
      searchPhone := "";
      searchStatus := All;
      this.customers := customers;
      this.fold := fold;
    }

    function View(): seq<Customer>
      reads this
    {
      FilteredCustomers(customers, activeNlSearch, searchPhone, searchStatus, fold)
    }

    /** Typing in the free-text box changes only the draft. */
    method SetNlSearch(value: string)
      modifies this
      ensures nlSearch == value && activeNlSearch == old(activeNlSearch)
      ensures phoneFilter == old(phoneFilter) && statusFilter == old(statusFilter)
      ensures searchPhone == old(searchPhone) && searchStatus == old(searchStatus)
      ensures View() == old(View())
    {
      nlSearch := value;
    }

    /** `handleNlSearch`: the searched value becomes the active query; the detail conditions stay. */
    method NlSearch(value: string)
      modifies this
      ensures activeNlSearch == value && nlSearch == old(nlSearch)
      ensures phoneFilter == old(phoneFilter) && statusFilter == old(statusFilter)
      ensures searchPhone == old(searchPhone) && searchStatus == old(searchStatus)
    {
      activeNlSearch := value;
    }

    method SetPhoneFilter(value: string)
      modifies this
      ensures phoneFilter == value && statusFilter == old(statusFilter)
      ensures nlSearch == old(nlSearch) && activeNlSearch == old(activeNlSearch)
      ensures searchPhone == old(searchPhone) && searchStatus == old(searchStatus)
      ensures View() == old(View())
    {
      phoneFilter := value;
    }

    method SetStatusFilter(value: string)
      modifies this
      ensures statusFilter == value && phoneFilter == old(phoneFilter)
      ensures nlSearch == old(nlSearch) && activeNlSearch == old(activeNlSearch)
      ensures searchPhone == old(searchPhone) && searchStatus == old(searchStatus)
      ensures View() == old(View())
    {
      statusFilter := value;
    }

    /** `handleSearch`: copy the phone and status drafts; the free-text query is not touched. */
    method Search()
      modifies this
      ensures searchPhone == phoneFilter && searchStatus == statusFilter
      ensures activeNlSearch == old(activeNlSearch) && nlSearch == old(nlSearch)
      ensures phoneFilter == old(phoneFilter) && statusFilter == old(statusFilter)
    {
      searchPhone := phoneFilter;
      searchStatus := statusFilter;
    }

    /** `handleKeyPress` of the phone input: Enter searches; any other key changes nothing. */
    method KeyPress(key: string)
      modifies this
      ensures key == "Enter" ==> searchPhone == phoneFilter && searchStatus == statusFilter
      ensures key != "Enter" ==> searchPhone == old(searchPhone) && searchStatus == old(searchStatus)
      ensures activeNlSearch == old(activeNlSearch) && nlSearch == old(nlSearch)
      ensures phoneFilter == old(phoneFilter) && statusFilter == old(statusFilter)
    {
      if key == "Enter" {
        Search();
      }
    }
  }
}
