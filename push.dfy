/**
 * Push notifications: the status/target filtered list, the customer and
 * seller search of the send form, the target count of a new notification,
 * creating and cancelling, the cancel button, the success-rate cell and the
 * statistics cards.
 */
module Push {
  import opened Wrappers
  import opened Text
  import opened Types
  import opened Filtering
  import Coupons

  // ------------------------------------------------------------- the list

  function PushClauses(statusFilter: string, targetFilter: string): seq<Clause<PushNotification>> {
    [Exact((n: PushNotification) => n.status.Label(), statusFilter),
     Exact((n: PushNotification) => n.targetType.Label(), targetFilter)]
  }

  /** `filteredNotifications`: both selections hold, each either the sentinel or equal to the notification's value. */
  function FilteredNotifications(ns: seq<PushNotification>, statusFilter: string, targetFilter: string): (r: seq<PushNotification>)
    ensures forall n :: n in r <==>
      (n in ns && (statusFilter == All || n.status.Label() == statusFilter)
               && (targetFilter == All || n.targetType.Label() == targetFilter))
    ensures Subsequence(r, ns)
    ensures statusFilter == All && targetFilter == All ==> r == ns
  {
    var cs := PushClauses(statusFilter, targetFilter);
    FilterMembers(ns, cs);
    FilterIsSubsequence(ns, cs);
    assert forall n :: HoldsAll(cs, n) <==> Holds(cs[0], n) && Holds(cs[1], n);
    assert statusFilter == All && targetFilter == All ==> Filter(ns, cs) == ns by {
      if statusFilter == All && targetFilter == All { FilterVacuous(ns, cs); }
    }
    Filter(ns, cs)
  }

  // ------------------------------------------------------- target search

  /** `searchedCustomers`: only while 특정고객 is chosen; then the coupon page's picker rule (first five matches). */
  function SearchedCustomers(customers: seq<Customer>, targetType: TargetType, text: string, fold: string -> string): (r: seq<Customer>)
    ensures targetType != SpecificCustomer || text == "" ==> r == []
    ensures |r| <= Coupons.PickerLimit && Subsequence(r, customers)
    ensures forall c :: c in r ==> c in customers && Coupons.PickerMatches(c, text, fold)
    ensures targetType == SpecificCustomer ==> r == Coupons.PickCustomers(customers, text, fold)
  {
    if targetType != SpecificCustomer then [] else Coupons.PickCustomers(customers, text, fold)
  }

  /** The seller search's condition: the lower-cased name holds the lower-cased text, or an owner phone holds the raw text. */
  predicate StoreSearchMatches(s: Store, text: string, fold: string -> string) {
    Contains(fold(s.name), fold(text)) || (s.ownerPhone.Some? && Contains(s.ownerPhone.value, text))
  }

  function StoreSearchClause(text: string, fold: string -> string): Clause<Store> {
    FreeText(text, [
      Probe((s: Store) => Some(s.name), true, true),
      Probe((s: Store) => s.ownerPhone, false, false)], fold)
  }

  lemma StoreSearchClauseMeaning(s: Store, text: string, fold: string -> string)
    requires text != ""
    ensures HoldsAll([StoreSearchClause(text, fold)], s) <==> StoreSearchMatches(s, text, fold)
  {
    var ps := StoreSearchClause(text, fold).probes;
    HoldsOne(StoreSearchClause(text, fold), s);
    if Holds(StoreSearchClause(text, fold), s) {
      var i :| 0 <= i < |ps| && ProbeMatches(ps[i], s, text, fold);
      assert i == 0 || i == 1;
    }
    if Contains(fold(s.name), fold(text)) {
      assert ProbeMatches(ps[0], s, text, fold);
    } else if s.ownerPhone.Some? && Contains(s.ownerPhone.value, text) {
      assert ProbeMatches(ps[1], s, text, fold);
    }
  }

  /** `searchedStores`: only while 특정판매자 is chosen and the text is non-empty; the first five matching stores. */
  function SearchedStores(stores: seq<Store>, targetType: TargetType, text: string, fold: string -> string): (r: seq<Store>)
    ensures targetType != SpecificSeller || text == "" ==> r == []
    ensures |r| <= Coupons.PickerLimit && Subsequence(r, stores)
    ensures forall s :: s in r ==> s in stores && StoreSearchMatches(s, text, fold)
    ensures forall s :: s in r ==> StoreSearchMatches(s, text, fold) && (s.ownerPhone.None? ==> Contains(fold(s.name), fold(text)))
  {
    if targetType != SpecificSeller || text == "" then []
    else
      var cs := [StoreSearchClause(text, fold)];
      var all := Filter(stores, cs);
      FilterMembers(stores, cs);
      FilterIsSubsequence(stores, cs);
      assert forall s :: HoldsAll(cs, s) <==> StoreSearchMatches(s, text, fold) by {
        forall s ensures HoldsAll(cs, s) <==> StoreSearchMatches(s, text, fold) {
          StoreSearchClauseMeaning(s, text, fold);
        }
      }
      var r := Prefix(all, Coupons.PickerLimit);
      PrefixIsSubsequence(all, |r|);
      SubsequenceTransitive(r, all, stores);
      SubsequenceMembers(r, all);
      r
  }

  // --------------------------------------------------------- target count

  /** `mockCustomers.length * 100`: the stand-in audience size for 전체고객. */
  const EveryCustomerFactor: int := 100

  /** `mockCohorts.find(c => c.name === targetDetail)`: the first cohort with that name. */
  function FindCohort(cohorts: seq<Cohort>, name: Option<string>): (r: Option<Cohort>)
    ensures r.Some? ==> name.Some? && r.value in cohorts && r.value.name == name.value
    ensures r.Some? ==> exists k :: (0 <= k < |cohorts| && cohorts[k] == r.value
      && forall m :: 0 <= m < k ==> cohorts[m].name != name.value)
    ensures r.None? <==> name.None? || forall c :: c in cohorts ==> c.name != name.value
    decreases |cohorts|
  {
    if name.None? || cohorts == [] then None
    else if cohorts[0].name == name.value then Some(cohorts[0])
    else
      var r := FindCohort(cohorts[1..], name);
      assert r.Some? ==> exists k :: (0 <= k < |cohorts| && cohorts[k] == r.value
        && forall m :: 0 <= m < k ==> cohorts[m].name != name.value) by {
        if r.Some? {
          var k :| 0 <= k < |cohorts[1..]| && cohorts[1..][k] == r.value
            && forall m :: 0 <= m < k ==> cohorts[1..][m].name != name.value;
          assert cohorts[k + 1] == r.value;
          assert forall m :: 0 <= m < k + 1 ==> cohorts[m].name != name.value by {
            forall m | 0 <= m < k + 1 ensures cohorts[m].name != name.value {
              if m > 0 { assert cohorts[m] == cohorts[1..][m - 1]; }
            }
          }
        }
      }
      assert r.None? ==> forall c :: c in cohorts ==> c.name != name.value by {
        if r.None? {
          forall c | c in cohorts ensures c.name != name.value {
            if c != cohorts[0] {
              var k :| 0 <= k < |cohorts| && cohorts[k] == c;
              assert c == cohorts[1..][k - 1];
            }
          }
        }
      }
      r
  }

  /** The number of 심사완료 stores. */
  function ApprovedCount(stores: seq<Store>): (n: nat)
    ensures n <= |stores|
    ensures n == 0 <==> forall s :: s in stores ==> s.status != Approved
    ensures n == |stores| <==> forall s :: s in stores ==> s.status == Approved
  {
    var cs := [Where((s: Store) => s.status == Approved)];
    var kept := Filter(stores, cs);
    FilterLength(stores, cs);
    FilterMembers(stores, cs);
    FilterIsSubsequence(stores, cs);
    assert forall s :: HoldsAll(cs, s) <==> s.status == Approved by {
      forall s ensures HoldsAll(cs, s) <==> s.status == Approved { HoldsOne(cs[0], s); }
    }
    assert kept != [] ==> kept[0] in kept;
    assert (forall s :: s in stores ==> s.status == Approved) ==> kept == stores by {
      if forall s :: s in stores ==> s.status == Approved {
        FilterAllPass(stores, cs);
      }
    }
    assert |kept| == |stores| ==> forall s :: s in stores ==> s.status == Approved by {
      if |kept| == |stores| { FilterFull(stores, cs); }
    }
    |kept|
  }

  /**
   * The `switch` of `handleSubmit` that fills `targetCount`, starting at 0:
   * the stand-in size for 전체고객, the 심사완료 stores for 전체판매자, the
   * chosen cohort's size (0 when none has the name) for 코호트, and 1 for a
   * specific customer or seller.
   */
  method ComputeTargetCount(targetType: TargetType, targetDetail: Option<string>,
                            customers: seq<Customer>, stores: seq<Store>, cohorts: seq<Cohort>)
    returns (targetCount: int)
    ensures targetType == AllCustomers ==> targetCount == |customers| * EveryCustomerFactor
    ensures targetType == AllSellers ==> targetCount == ApprovedCount(stores)
    ensures targetType == CohortMembers ==>
      targetCount == (if FindCohort(cohorts, targetDetail).Some? then FindCohort(cohorts, targetDetail).value.memberCount else 0)
    ensures targetType == CohortMembers && targetDetail.None? ==> targetCount == 0
    ensures targetType == SpecificCustomer || targetType == SpecificSeller ==> targetCount == 1
  {
    targetCount := 0;
    match targetType {
      case AllCustomers =>
        targetCount := |customers| * EveryCustomerFactor;
      case AllSellers =>
        targetCount := ApprovedCount(stores);
      case CohortMembers =>
        var cohort := FindCohort(cohorts, targetDetail);
        if cohort.Some? {
          targetCount := cohort.value.memberCount;
        }
      case SpecificCustomer =>
        targetCount := 1;
      case SpecificSeller =>
        targetCount := 1;
    }
  }

  // ---------------------------------------------------- create and cancel

  /** The fields the send form supplies. */
  datatype PushForm = PushForm(title: string, message: string, targetType: TargetType,
                               targetDetail: Option<string>, scheduledAt: string)

  /** The notification `handleSubmit` builds: 발송예정, not sent yet, no success count. */
  function NewNotification(id: string, f: PushForm, targetCount: int, createdAt: string): PushNotification {
    PushNotification(id, f.title, f.message, f.targetType, f.targetDetail, f.scheduledAt, None, targetCount, None, Scheduled, createdAt)
  }

  /** `handleCancel`: the notifications with the id become 취소; nothing else changes. */
  function Cancel(ns: seq<PushNotification>, id: string): (r: seq<PushNotification>)
    ensures |r| == |ns|
    ensures forall k :: 0 <= k < |r| ==> r[k].(status := ns[k].status) == ns[k]
    ensures forall k :: 0 <= k < |r| ==> r[k].status == if ns[k].id == id then Cancelled else ns[k].status
    decreases |ns|
  {
    if ns == [] then []
    else [if ns[0].id == id then ns[0].(status := Cancelled) else ns[0]] + Cancel(ns[1..], id)
  }

  /** The 취소 button is offered only for 발송예정. */
  predicate CanCancel(n: PushNotification) {
    n.status.Label() == "발송예정"
  }

  lemma CanCancelIffScheduled(n: PushNotification)
    ensures CanCancel(n) <==> n.status == Scheduled
  {
  }

  /** A cancelled notification no longer offers the button, and a new one always does. */
  lemma CancelRemovesButton(ns: seq<PushNotification>, id: string, f: PushForm, nid: string, targetCount: int, createdAt: string)
    ensures forall k :: 0 <= k < |ns| && ns[k].id == id ==> !CanCancel(Cancel(ns, id)[k])
    ensures CanCancel(NewNotification(nid, f, targetCount, createdAt))
  {
  }

  // ---------------------------------------------------- success-rate cell

  /**
   * The cell's guard as written: a rate is shown for a 발송완료 notification
   * whose success count is present and not 0. The target count is not looked at.
   */
  predicate RateShownAsWritten(n: PushNotification) {
    n.status == Delivered && n.successCount.Some? && n.successCount.value != 0
  }

  /** The guard with the divisor checked too: a rate is shown only when it can be computed. */
  predicate RateShown(n: PushNotification) {
    RateShownAsWritten(n) && n.targetCount > 0
  }

  /** The written guard lets a zero target count through, so the division `successCount / targetCount` has divisor 0. */
  lemma RateGuardAdmitsZeroTarget()
    ensures var n := PushNotification("1", "", "", CohortMembers, None, "", None, 0, Some(3), Delivered, "");
      RateShownAsWritten(n) && n.targetCount == 0
  {
  }

  /** With the divisor checked, every shown rate is a defined quotient, and the two guards agree whenever the target count is positive. */
  lemma RateShownIsDefined(n: PushNotification)
    ensures RateShown(n) ==> n.targetCount != 0 && n.successCount.Some?
    ensures n.targetCount > 0 ==> (RateShown(n) <==> RateShownAsWritten(n))
    ensures !RateShown(n) <== n.status != Delivered || n.successCount.None? || n.successCount == Some(0)
  {
  }

  /** The rate of a shown cell, in percent, as an exact quotient. */
  function SuccessRate(n: PushNotification): (r: real)
    requires RateShown(n)
    ensures n.successCount.value <= n.targetCount ==> r <= 100.0
    ensures n.successCount.value >= 0 ==> r >= 0.0
  {
    var s, t := n.successCount.value as real, n.targetCount as real;
    assert n.successCount.value <= n.targetCount ==> s / t <= 1.0;
    s / t * 100.0
  }

  // ------------------------------------------------------------ statistics

  datatype PushStats = PushStats(sentCount: nat, scheduled: nat, totalSent: int)

  function WithStatus(s: PushStatus): seq<Clause<PushNotification>> {
    [Where((n: PushNotification) => n.status == s)]
  }

  /** The 발송완료 notifications, in list order. */
  function Sent(ns: seq<PushNotification>): (r: seq<PushNotification>)
    ensures forall n :: n in r <==> n in ns && n.status == Delivered
    ensures |r| <= |ns|
  {
    FilterMembers(ns, WithStatus(Delivered));
    FilterLength(ns, WithStatus(Delivered));
    assert forall n :: HoldsAll(WithStatus(Delivered), n) <==> n.status == Delivered by {
      forall n ensures HoldsAll(WithStatus(Delivered), n) <==> n.status == Delivered {
        HoldsOne(WithStatus(Delivered)[0], n);
      }
    }
    Filter(ns, WithStatus(Delivered))
  }

  /** `n.successCount || 0`. */
  function SuccessOrZero(n: PushNotification): int {
    match n.successCount case Some(v) => v case None => 0
  }

  function SumSuccess(ns: seq<PushNotification>): int
    decreases |ns|
  {
    if ns == [] then 0 else SuccessOrZero(ns[0]) + SumSuccess(ns[1..])
  }

  /** `stats`: the sent count, the 발송예정 count and the success counts of the sent ones added up. */
  function Stats(ns: seq<PushNotification>): PushStats {
    PushStats(|Sent(ns)|, |Filter(ns, WithStatus(Scheduled))|, SumSuccess(Sent(ns)))
  }

  lemma SumSuccessCons(n: PushNotification, ns: seq<PushNotification>)
    ensures SumSuccess([n] + ns) == SuccessOrZero(n) + SumSuccess(ns)
  {
    assert ([n] + ns)[0] == n && ([n] + ns)[1..] == ns;
  }

  lemma StatsCons(n: PushNotification, ns: seq<PushNotification>)
    ensures var before, after := Stats(ns), Stats([n] + ns);
      && after.sentCount == before.sentCount + (if n.status == Delivered then 1 else 0)
      && after.scheduled == before.scheduled + (if n.status == Scheduled then 1 else 0)
      && after.totalSent == before.totalSent + (if n.status == Delivered then SuccessOrZero(n) else 0)
  {
    FilterCons(n, ns, WithStatus(Delivered));
    FilterCons(n, ns, WithStatus(Scheduled));
    HoldsOne(WithStatus(Delivered)[0], n);
    HoldsOne(WithStatus(Scheduled)[0], n);
    if n.status == Delivered {
      SumSuccessCons(n, Sent(ns));
    } else {
      assert Sent([n] + ns) == Sent(ns);
    }
  }

  /** `StatsCons` read from a non-empty list: its first notification and the rest. */
  lemma StatsUncons(ns: seq<PushNotification>)
    requires ns != []
    ensures var before, after := Stats(ns[1..]), Stats(ns);
      && after.sentCount == before.sentCount + (if ns[0].status == Delivered then 1 else 0)
      && after.scheduled == before.scheduled + (if ns[0].status == Scheduled then 1 else 0)
      && after.totalSent == before.totalSent + (if ns[0].status == Delivered then SuccessOrZero(ns[0]) else 0)
  {
    assert ns == [ns[0]] + ns[1..];
    StatsCons(ns[0], ns[1..]);
  }

  /** With non-negative success counts, the total is at least 0; an absent count adds nothing. */
  lemma {:induction false} TotalSentBounds(ns: seq<PushNotification>)
    requires forall k :: 0 <= k < |ns| ==> SuccessOrZero(ns[k]) >= 0
    ensures Stats(ns).totalSent >= 0
    ensures Stats(ns).sentCount == 0 ==> Stats(ns).totalSent == 0
    decreases |ns|
  {
    if ns != [] {
      TotalSentBounds(ns[1..]);
      assert ns == [ns[0]] + ns[1..];
      StatsCons(ns[0], ns[1..]);
    }
  }

  /** Creating adds one 발송예정 notification and leaves the sent figures. */
  lemma CreateStats(ns: seq<PushNotification>, id: string, f: PushForm, targetCount: int, createdAt: string)
    ensures var before, after := Stats(ns), Stats([NewNotification(id, f, targetCount, createdAt)] + ns);
      after == before.(scheduled := before.scheduled + 1)
  {
    StatsCons(NewNotification(id, f, targetCount, createdAt), ns);
  }

  /** Cancelling, as offered (every notification with the id is 발송예정), leaves the sent figures and does not raise the 발송예정 count. */
  lemma {:induction false} CancelStats(ns: seq<PushNotification>, id: string)
    requires forall k :: 0 <= k < |ns| && ns[k].id == id ==> ns[k].status == Scheduled
    ensures var before, after := Stats(ns), Stats(Cancel(ns, id));
      after.sentCount == before.sentCount && after.totalSent == before.totalSent
      && after.scheduled <= before.scheduled
    decreases |ns|
  {
    if ns != [] {
      CancelStats(ns[1..], id);
      var n := ns[0];
      var n' := if n.id == id then n.(status := Cancelled) else n;
      var rest := Cancel(ns[1..], id);
      assert Cancel(ns, id) == [n'] + rest;
      StatsUncons(ns);
      StatsCons(n', rest);
    }
  }

  /**
   * The average success rate in percent: the literal 0 when nothing was sent;
   * otherwise the mean of `successCount / targetCount * 100` over the sent
   * notifications, or None when a zero target count makes it non-finite.
   */
  function AverageSuccessRate(ns: seq<PushNotification>): (r: Option<real>)
    ensures |Sent(ns)| == 0 ==> r == Some(0.0)
  {
    var sent := Sent(ns);
    if |sent| == 0 then Some(0.0)
    else match SumRates(sent) case None => None case Some(total) => Some(total / (|sent| as real))
  }

  function SumRates(ns: seq<PushNotification>): Option<real>
    decreases |ns|
  {
    if ns == [] then Some(0.0)
    else if ns[0].targetCount == 0 then None
    else match SumRates(ns[1..])
      case None => None
      case Some(rest) => Some((SuccessOrZero(ns[0]) as real) / (ns[0].targetCount as real) * 100.0 + rest)
  }

  /** Counts within their targets. */
  predicate Plausible(n: PushNotification) {
    n.targetCount > 0 && 0 <= SuccessOrZero(n) <= n.targetCount
  }

  lemma {:induction false} SumRatesBounds(ns: seq<PushNotification>)
    requires forall k :: 0 <= k < |ns| ==> Plausible(ns[k])
    ensures SumRates(ns).Some?
    ensures 0.0 <= SumRates(ns).value <= 100.0 * (|ns| as real)
    decreases |ns|
  {
    if ns != [] {
      SumRatesBounds(ns[1..]);
      var s, t := SuccessOrZero(ns[0]) as real, ns[0].targetCount as real;
      assert 0.0 <= s / t <= 1.0;
    }
  }

  /** When every sent notification reached at most its target, the average is a percentage. */
  lemma AverageIsPercentage(ns: seq<PushNotification>)
    requires forall n :: n in ns && n.status == Delivered ==> Plausible(n)
    ensures AverageSuccessRate(ns).Some?
    ensures 0.0 <= AverageSuccessRate(ns).value <= 100.0
  {
    var sent := Sent(ns);
    assert forall k :: 0 <= k < |sent| ==> sent[k] in sent;
    SumRatesBounds(sent);
    if |sent| > 0 {
      var total := SumRates(sent).value;
      var m := |sent| as real;
      assert total / m <= 100.0;
    }
  }

  /** A sent notification with a zero target makes the average non-finite. */
  lemma ZeroTargetSpoilsAverage(ns: seq<PushNotification>)
    requires exists n :: n in Sent(ns) && n.targetCount == 0
    ensures AverageSuccessRate(ns) == None
  {
    var sent := Sent(ns);
    SumRatesNone(sent);
  }

  lemma {:induction false} SumRatesNone(ns: seq<PushNotification>)
    requires exists n :: n in ns && n.targetCount == 0
    ensures SumRates(ns) == None
    decreases |ns|
  {
    if ns[0].targetCount != 0 {
      var n :| n in ns && n.targetCount == 0;
      assert n in ns[1..];
      SumRatesNone(ns[1..]);
    }
  }

  // ------------------------------------------------------------------ page

  /** The push page's state. */
  class PushPage {
    var notifications: seq<PushNotification>
    var statusFilter: string
    var targetFilter: string
    var targetType: TargetType
    var searchText: string
    const customers: seq<Customer>
    const stores: seq<Store>
    const cohorts: seq<Cohort>
    const fold: string -> string

    constructor (initial: seq<PushNotification>, customers: seq<Customer>, stores: seq<Store>,
                 cohorts: seq<Cohort>, fold: string -> string)
      ensures notifications == initial && statusFilter == All && targetFilter == All
      ensures targetType == AllCustomers && searchText == ""
      ensures this.customers == customers && this.stores == stores && this.cohorts == cohorts && this.fold == fold
    {
      notifications := initial;
      statusFilter := All;
      targetFilter := All;
      targetType := AllCustomers;
      searchText := "";
      this.customers := customers;
      this.stores := stores;
      this.cohorts := cohorts;
      this.fold := fold;
    }

    function View(): seq<PushNotification>
      reads this
    {
      FilteredNotifications(notifications, statusFilter, targetFilter)
    }

    function CustomerResults(): seq<Customer>
      reads this
    {
      SearchedCustomers(customers, targetType, searchText, fold)
    }

    function StoreResults(): seq<Store>
      reads this
    {
      SearchedStores(stores, targetType, searchText, fold)
    }

    method SetStatusFilter(value: string)
      modifies this
      ensures statusFilter == value && targetFilter == old(targetFilter) && notifications == old(notifications)
      ensures targetType == old(targetType) && searchText == old(searchText)
    {
      statusFilter := value;
    }

    method SetTargetFilter(value: string)
      modifies this
      ensures targetFilter == value && statusFilter == old(statusFilter) && notifications == old(notifications)
      ensures targetType == old(targetType) && searchText == old(searchText)
    {
      targetFilter := value;
    }

    /** `handleAdd`: the form opens on 전체고객 with an empty search. */
    method OpenForm()
      modifies this
      ensures targetType == AllCustomers && searchText == ""
      ensures CustomerResults() == [] && StoreResults() == []
      ensures notifications == old(notifications) && statusFilter == old(statusFilter) && targetFilter == old(targetFilter)
    {
      targetType := AllCustomers;
      searchText := "";
    }

    /** `handleTargetTypeChange`: a new target type clears the search. */
    method ChangeTargetType(value: TargetType)
      modifies this
      ensures targetType == value && searchText == ""
      ensures CustomerResults() == [] && StoreResults() == []
      ensures notifications == old(notifications) && statusFilter == old(statusFilter) && targetFilter == old(targetFilter)
    {
      targetType := value;
      searchText := "";
    }

    method SetSearchText(value: string)
      modifies this
      ensures searchText == value && targetType == old(targetType)
      ensures notifications == old(notifications) && statusFilter == old(statusFilter) && targetFilter == old(targetFilter)
    {
      searchText := value;
    }

    /** `handleSelectTarget`: picking a result clears the search. */
    method SelectTarget()
      modifies this
      ensures searchText == "" && targetType == old(targetType)
      ensures notifications == old(notifications) && statusFilter == old(statusFilter) && targetFilter == old(targetFilter)
    {
      searchText := "";
    }

    /** `handleSubmit`: count the audience, then put the new 발송예정 notification in front. */
    method Submit(id: string, form: PushForm, createdAt: string)
      modifies this
      ensures |notifications| == |old(notifications)| + 1 && notifications[1..] == old(notifications)
      ensures notifications[0] == NewNotification(id, form, notifications[0].targetCount, createdAt)
      ensures notifications[0].status == Scheduled && notifications[0].sentAt.None? && notifications[0].successCount.None?
      ensures form.targetType == AllCustomers ==> notifications[0].targetCount == |customers| * EveryCustomerFactor
      ensures form.targetType == AllSellers ==> notifications[0].targetCount == ApprovedCount(stores)
      ensures form.targetType == CohortMembers ==> (
        notifications[0].targetCount ==
          if FindCohort(cohorts, form.targetDetail).Some? then FindCohort(cohorts, form.targetDetail).value.memberCount else 0)
      ensures form.targetType == SpecificCustomer || form.targetType == SpecificSeller ==> notifications[0].targetCount == 1
      ensures statusFilter == old(statusFilter) && targetFilter == old(targetFilter)
      ensures targetType == old(targetType) && searchText == old(searchText)
    {
      var count := ComputeTargetCount(form.targetType, form.targetDetail, customers, stores, cohorts);
      notifications := [NewNotification(id, form, count, createdAt)] + notifications;
    }

    /** The confirmed `handleCancel`. */
    method CancelNotification(id: string)
      modifies this
      ensures notifications == Cancel(old(notifications), id)
      ensures statusFilter == old(statusFilter) && targetFilter == old(targetFilter)
      ensures targetType == old(targetType) && searchText == old(searchText)
    {
      notifications := Cancel(notifications, id);
    }
  }
}
