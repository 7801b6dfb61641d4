/**
 * Settlement management: the list narrowed by the selected status card, the
 * rows that may be ticked, the batch total over the ticked ids, and the
 * store-name options built from the distinct store names.
 */
module Settlements {
  import opened Wrappers
  import opened Types
  import opened Filtering
  import StatusCards

  /** `filteredSettlements`: `null` (or "") selects every status, otherwise only an equal status. */
  function FilteredSettlements(settlements: seq<Settlement>, selectedStatus: Option<string>): (r: seq<Settlement>)
    ensures forall s :: s in r <==>
      (s in settlements && (selectedStatus == None || selectedStatus == Some("") || s.status.Label() == selectedStatus.value))
    ensures Subsequence(r, settlements)
    ensures selectedStatus == None ==> r == settlements
  {
    var cs := [Selected((s: Settlement) => s.status.Label(), selectedStatus)];
    FilterMembers(settlements, cs);
    FilterIsSubsequence(settlements, cs);
    assert forall s :: HoldsAll(cs, s) <==> Holds(cs[0], s);
    assert selectedStatus == None ==> Filter(settlements, cs) == settlements by {
      if selectedStatus == None { FilterVacuous(settlements, cs); }
    }
    Filter(settlements, cs)
  }

  // ------------------------------------------------------------- selection

  /** `getCheckboxProps`: the checkbox is enabled for 정산대기 rows only. */
  predicate RowSelectable(s: Settlement) {
    s.status.Label() == "정산대기"
  }

  /**
   * Selecting the 정산대기 card leaves only rows that can be ticked; selecting
   * any other status card leaves none.
   */
  lemma SelectableUnderStatusCard(settlements: seq<Settlement>, status: SettlementStatus)
    ensures status == Pending ==>
      forall s :: s in FilteredSettlements(settlements, StatusCards.ClickValue(status.Label())) ==> RowSelectable(s)
    ensures status != Pending ==>
      forall s :: s in FilteredSettlements(settlements, StatusCards.ClickValue(status.Label())) ==> !RowSelectable(s)
  {
    LabelsAreInjective();
  }

  // ----------------------------------------------------------- batch total

  /** The sum of `settlementAmount` over a list. */
  function TotalAmount(xs: seq<Settlement>): int
    decreases |xs|
  {
    if xs == [] then 0 else xs[0].settlementAmount + TotalAmount(xs[1..])
  }

  lemma TotalAmountCons(x: Settlement, xs: seq<Settlement>)
    ensures TotalAmount([x] + xs) == x.settlementAmount + TotalAmount(xs)
  {
    assert ([x] + xs)[1..] == xs;
  }

  /** The settlements whose id is one of the ticked row keys, in list order. */
  function Ticked(settlements: seq<Settlement>, rows: seq<string>): (r: seq<Settlement>)
    ensures forall s :: s in r <==> s in settlements && s.id in rows
    ensures Subsequence(r, settlements)
  {
    var cs := [Where((s: Settlement) => s.id in rows)];
    FilterMembers(settlements, cs);
    FilterIsSubsequence(settlements, cs);
    assert forall s :: HoldsAll(cs, s) <==> Holds(cs[0], s);
    Filter(settlements, cs)
  }

  /**
   * `handleBatchProcess`: with no ticked row there is only a warning and no
   * total; otherwise the total of the settlements whose id is ticked.
   */
  function BatchTotal(settlements: seq<Settlement>, rows: seq<string>): (r: Option<int>)
    ensures r.None? <==> |rows| == 0
    ensures r.Some? ==> r.value == TotalAmount(Ticked(settlements, rows))
  {
    if |rows| == 0 then None else Some(TotalAmount(Ticked(settlements, rows)))
  }

  /**
   * The total depends only on which ids are ticked: the order of the keys and
   * repeated keys do not change it, since each settlement is counted once.
   */
  lemma BatchTotalDependsOnIdsOnly(settlements: seq<Settlement>, rows1: seq<string>, rows2: seq<string>)
    requires forall k :: k in rows1 <==> k in rows2
    ensures BatchTotal(settlements, rows1) == BatchTotal(settlements, rows2)
  {
    var c1 := [Where((s: Settlement) => s.id in rows1)];
    var c2 := [Where((s: Settlement) => s.id in rows2)];
    assert forall s :: HoldsAll(c1, s) <==> Holds(c1[0], s);
    assert forall s :: HoldsAll(c2, s) <==> Holds(c2[0], s);
    FilterAgrees(settlements, c1, c2);
    assert |rows1| == 0 <==> |rows2| == 0 by {
      if |rows1| > 0 { assert rows1[0] in rows2; }
      if |rows2| > 0 { assert rows2[0] in rows1; }
    }
  }

  /** With non-negative amounts, a batch total lies between nothing and the total of every settlement. */
  lemma {:induction false} TickedTotalBounds(settlements: seq<Settlement>, rows: seq<string>)
    requires forall s :: s in settlements ==> s.settlementAmount >= 0
    ensures 0 <= TotalAmount(Ticked(settlements, rows)) <= TotalAmount(settlements)
    decreases |settlements|
  {
    if settlements != [] {
      var x, rest := settlements[0], settlements[1..];
      assert forall s :: s in rest ==> s in settlements;
      TickedTotalBounds(rest, rows);
      TickedUncons(settlements, rows);
      if x.id in rows {
        TotalAmountCons(x, Ticked(rest, rows));
      } else {
        assert Ticked(settlements, rows) == Ticked(rest, rows);
      }
    }
  }

  /** The ticked rows of a non-empty list: the first settlement if its id is ticked, then those of the rest. */
  lemma TickedUncons(settlements: seq<Settlement>, rows: seq<string>)
    requires settlements != []
    ensures Ticked(settlements, rows)
      == (if settlements[0].id in rows then [settlements[0]] else []) + Ticked(settlements[1..], rows)
  {
    var cs := [Where((s: Settlement) => s.id in rows)];
    HoldsOne(cs[0], settlements[0]);
    assert Ticked(settlements, rows) == Filter(settlements, cs);
    assert Ticked(settlements[1..], rows) == Filter(settlements[1..], cs);
  }

  /** Ticking every id totals every settlement. */
  lemma TickingAllTotalsAll(settlements: seq<Settlement>, rows: seq<string>)
    requires |rows| > 0
    requires forall s :: s in settlements ==> s.id in rows
    ensures BatchTotal(settlements, rows) == Some(TotalAmount(settlements))
  {
    var cs := [Where((s: Settlement) => s.id in rows)];
    assert forall s :: HoldsAll(cs, s) <==> Holds(cs[0], s);
    FilterAllPass(settlements, cs);
  }

  // ------------------------------------------------------ store-name options

  /** The position of the first occurrence of `x`. */
  function FirstIndex<T(==)>(xs: seq<T>, x: T): (k: nat)
    requires x in xs
    ensures k < |xs| && xs[k] == x
    ensures forall j :: 0 <= j < k ==> xs[j] != x
    decreases |xs|
  {
    if xs[0] == x then 0 else 1 + FirstIndex(xs[1..], x)
  }

  /** An element of a prefix has its first occurrence in that prefix. */
  lemma FirstIndexInPrefix<T>(xs: seq<T>, n: nat, x: T)
    requires n <= |xs| && x in xs[..n]
    ensures x in xs && FirstIndex(xs[..n], x) == FirstIndex(xs, x)
  {
    assert forall j :: 0 <= j < n ==> xs[..n][j] == xs[j];
  }

  /**
   * `[...new Set(xs)]`: each distinct element once, in the order of its first
   * occurrence (`DistinctFacts` states it).
   */
  function Distinct<T(==)>(xs: seq<T>): seq<T>
    decreases |xs|
  {
    if xs == [] then []
    else
      var r := Distinct(xs[..|xs| - 1]);
      if xs[|xs| - 1] in r then r else r + [xs[|xs| - 1]]
  }

  /** The de-duplicated list has the same members as the input. */
  lemma {:induction false} DistinctMembers<T>(xs: seq<T>)
    ensures forall x :: x in Distinct(xs) <==> x in xs
    decreases |xs|
  {
    if xs != [] {
      DistinctMembers(xs[..|xs| - 1]);
      assert xs == xs[..|xs| - 1] + [xs[|xs| - 1]];
    }
  }

  /** The de-duplicated list has no repeats. */
  lemma {:induction false} DistinctNoRepeats<T>(xs: seq<T>)
    ensures forall i, j :: 0 <= i < j < |Distinct(xs)| ==> Distinct(xs)[i] != Distinct(xs)[j]
    decreases |xs|
  {
    if xs != [] {
      DistinctNoRepeats(xs[..|xs| - 1]);
    }
  }

  /** The de-duplicated list keeps the order of first occurrences. */
  lemma {:induction false} DistinctKeepsFirstOrder<T(!new)>(xs: seq<T>)
    ensures forall x :: x in Distinct(xs) ==> x in xs
    ensures forall i, j :: 0 <= i < j < |Distinct(xs)| ==> FirstIndex(xs, Distinct(xs)[i]) < FirstIndex(xs, Distinct(xs)[j])
    decreases |xs|
  {
    DistinctMembers(xs);
    if xs != [] {
      var n := |xs| - 1;
      var init, last := xs[..n], xs[n];
      DistinctKeepsFirstOrder(init);
      DistinctMembers(init);
      var r, d := Distinct(init), Distinct(xs);
      forall i, j | 0 <= i < j < |d|
        ensures FirstIndex(xs, d[i]) < FirstIndex(xs, d[j])
      {
        assert d[i] == r[i] && r[i] in r;
        FirstIndexInPrefix(xs, n, r[i]);
        if j < |r| {
          assert d[j] == r[j] && r[j] in r;
          FirstIndexInPrefix(xs, n, r[j]);
        } else {
          assert d[j] == last && last !in r;
          assert FirstIndex(xs, last) == n by {
            assert forall k :: 0 <= k < n ==> xs[k] == init[k] && init[k] in init;
          }
        }
      }
    }
  }

  /** The de-duplicated list has the same members, no repeats, and keeps the order of first occurrences. */
  lemma DistinctFacts<T(!new)>(xs: seq<T>)
    ensures forall x :: x in Distinct(xs) <==> x in xs
    ensures forall i, j :: 0 <= i < j < |Distinct(xs)| ==> Distinct(xs)[i] != Distinct(xs)[j]
    ensures forall i, j :: 0 <= i < j < |Distinct(xs)| ==> FirstIndex(xs, Distinct(xs)[i]) < FirstIndex(xs, Distinct(xs)[j])
  {
    DistinctMembers(xs);
    DistinctNoRepeats(xs);
    DistinctKeepsFirstOrder(xs);
  }

  /** The options of the store-name select. */
  function StoreNameOptions(settlements: seq<Settlement>): (r: seq<string>)
    ensures forall name :: name in r <==> exists s :: s in settlements && s.storeName == name
    ensures forall i, j :: 0 <= i < j < |r| ==> r[i] != r[j]
  {
    var names := seq(|settlements|, k requires 0 <= k < |settlements| => settlements[k].storeName);
    var r := Distinct(names);
    DistinctFacts(names);
    assert forall name :: name in names <==> exists s :: s in settlements && s.storeName == name by {
      forall name ensures name in names <==> exists s :: s in settlements && s.storeName == name {
        if name in names {
          var k :| 0 <= k < |names| && names[k] == name;
          assert settlements[k] in settlements;
        }
        if exists s :: s in settlements && s.storeName == name {
          var s :| s in settlements && s.storeName == name;
          var k :| 0 <= k < |settlements| && settlements[k] == s;
          assert names[k] == name;
        }
      }
    }
    r
  }

  /** Appending an element adds it at the end unless it is already listed. */
  lemma DistinctSnoc<T>(xs: seq<T>, x: T)
    ensures Distinct(xs + [x]) == if x in xs then Distinct(xs) else Distinct(xs) + [x]
  {
    DistinctMembers(xs);
    assert (xs + [x])[..|xs|] == xs;
    assert (xs + [x])[|xs|] == x;
  }

  /** Two different store names are both kept, in order. */
  lemma DistinctKeepsDifferent()
    ensures Distinct(["가", "나"]) == ["가", "나"]
  {
    assert "가" != "나" by { assert "가"[0] != "나"[0]; }
    DistinctSnoc([], "가");
    assert [] + ["가"] == ["가"];
    DistinctSnoc(["가"], "나");
    assert ["가"] + ["나"] == ["가", "나"];
  }

  /** A store with two settlements gives one option, at the place of its first settlement. */
  lemma DistinctExample()
    ensures Distinct(["가", "나", "가"]) == ["가", "나"]
  {
    DistinctKeepsDifferent();
    DistinctSnoc(["가", "나"], "가");
    assert ["가", "나"] + ["가"] == ["가", "나", "가"];
  }

  // ------------------------------------------------------------------ page

  /** The `reduce` of `handleBatchProcess`: the amounts added up from the left. */
  method SumAmounts(xs: seq<Settlement>) returns (sum: int)
    ensures sum == TotalAmount(xs)
  {
    sum := 0;
    var i := 0;
    while i < |xs|
      invariant 0 <= i <= |xs|
      invariant sum + TotalAmount(xs[i..]) == TotalAmount(xs)
    {
      assert xs[i..][1..] == xs[i + 1..];
      sum := sum + xs[i].settlementAmount;
      i := i + 1;
    }
  }

  /** The settlement page's state: the selected status card and the ticked row keys. */
  class SettlementsPage {
    var selectedStatus: Option<string>
    var selectedRows: seq<string>
    const settlements: seq<Settlement>

    constructor (settlements: seq<Settlement>)
      ensures selectedStatus == None && selectedRows == []
      ensures this.settlements == settlements && View() == settlements
    {
      selectedStatus := None;
      selectedRows := [];
      this.settlements := settlements;
    }

    function View(): seq<Settlement>
      reads this
    {
      FilteredSettlements(settlements, selectedStatus)
    }

    /** A click on a status card selects its status, or nothing for 전체; the ticked rows stay. */
    method ClickCard(title: string)
      modifies this
      ensures selectedStatus == StatusCards.ClickValue(title)
      ensures selectedRows == old(selectedRows)
    {
      selectedStatus := StatusCards.ClickValue(title);
    }

    /** The table's `onChange`: the ticked keys replace the previous selection wholesale. */
    method SelectionChanged(keys: seq<string>)
      modifies this
      ensures selectedRows == keys && selectedStatus == old(selectedStatus)
    {
      selectedRows := keys;
    }

    /** `handleBatchProcess`: no total for an empty selection, otherwise the ticked settlements' total. */
    method BatchProcess() returns (total: Option<int>)
      ensures total.None? <==> |selectedRows| == 0
      ensures total.Some? ==> total.value == TotalAmount(Ticked(settlements, selectedRows))
    {
      if |selectedRows| == 0 {
        return None;
      }
      var sum := SumAmounts(Ticked(settlements, selectedRows));
      return Some(sum);
    }
  }
}
