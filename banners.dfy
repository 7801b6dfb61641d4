/**
 * Banner management: the status-filtered view sorted by `order`, moving a
 * banner up or down by exchanging `order` with its neighbour in the full
 * array and re-sorting, deleting, and adding or editing through the form.
 *
 * The array sort used by the page (`Array.prototype.sort` with the
 * comparator `a.order - b.order`) is stable; `SortByOrder` is a stable
 * insertion sort, so the two agree on every input.
 */
module Banners {
  import opened Wrappers
  import opened Types
  import opened Filtering

  // ------------------------------------------------------ sorting by order

  /** The `order` values, position by position (`banners.map(b => b.order)`). */
  function Orders(s: seq<Banner>): (r: seq<int>)
    ensures |r| == |s|
  {
    seq(|s|, k requires 0 <= k < |s| => s[k].order)
  }

  lemma OrdersAt(s: seq<Banner>, k: nat)
    requires k < |s|
    ensures Orders(s)[k] == s[k].order
  {
  }

  lemma OrdersAppend(s: seq<Banner>, t: seq<Banner>)
    ensures Orders(s + t) == Orders(s) + Orders(t)
  {
    assert forall k :: 0 <= k < |s + t| ==> Orders(s + t)[k] == (Orders(s) + Orders(t))[k];
  }

  lemma OrdersCons(b: Banner, s: seq<Banner>)
    ensures Orders([b] + s) == [b.order] + Orders(s)
  {
    OrdersAppend([b], s);
  }

  predicate SortedByOrder(s: seq<Banner>) {
    forall i, j :: 0 <= i < j < |s| ==> s[i].order <= s[j].order
  }

  /** Insert `b` before the first banner whose order is not smaller. */
  function Insert(b: Banner, s: seq<Banner>): seq<Banner>
    decreases |s|
  {
    if s == [] || b.order <= s[0].order then [b] + s else [s[0]] + Insert(b, s[1..])
  }

  function SortByOrder(s: seq<Banner>): seq<Banner>
    decreases |s|
  {
    if s == [] then [] else Insert(s[0], SortByOrder(s[1..]))
  }

  /** The clause that keeps the banners of one `order` value. */
  function WithOrder(k: int): seq<Clause<Banner>> {
    [Where((b: Banner) => b.order == k)]
  }

  lemma {:induction false} InsertPermutes(b: Banner, s: seq<Banner>)
    ensures multiset(Insert(b, s)) == multiset(s) + multiset{b}
    decreases |s|
  {
    if !(s == [] || b.order <= s[0].order) {
      InsertPermutes(b, s[1..]);
      assert s == [s[0]] + s[1..];
    }
  }

  lemma {:induction false} InsertKeepsOrderValues(b: Banner, s: seq<Banner>)
    ensures multiset(Orders(Insert(b, s))) == multiset(Orders(s)) + multiset{b.order}
    decreases |s|
  {
    if s == [] || b.order <= s[0].order {
      OrdersCons(b, s);
    } else {
      InsertKeepsOrderValues(b, s[1..]);
      assert s == [s[0]] + s[1..];
      OrdersCons(s[0], s[1..]);
      OrdersCons(s[0], Insert(b, s[1..]));
    }
  }

  /** A lower bound of `b` and of every banner of `s` bounds every banner of `Insert(b, s)`. */
  lemma {:induction false} InsertLowerBound(b: Banner, s: seq<Banner>, lo: int)
    requires lo <= b.order
    requires forall k :: 0 <= k < |s| ==> lo <= s[k].order
    ensures forall k :: 0 <= k < |Insert(b, s)| ==> lo <= Insert(b, s)[k].order
    decreases |s|
  {
    if !(s == [] || b.order <= s[0].order) {
      InsertLowerBound(b, s[1..], lo);
    }
  }

  lemma {:induction false} InsertKeepsSorted(b: Banner, s: seq<Banner>)
    requires SortedByOrder(s)
    ensures SortedByOrder(Insert(b, s))
    decreases |s|
  {
    if !(s == [] || b.order <= s[0].order) {
      InsertKeepsSorted(b, s[1..]);
      InsertLowerBound(b, s[1..], s[0].order);
      var r := Insert(b, s[1..]);
      var t := [s[0]] + r;
      forall i, j | 0 <= i < j < |t| ensures t[i].order <= t[j].order {
        assert t[j] == r[j - 1];
        if i > 0 { assert t[i] == r[i - 1]; }
      }
    }
  }

  /** Sorting yields a sorted permutation of its input and keeps the multiset of order values. */
  lemma SortFacts(s: seq<Banner>)
    ensures SortedByOrder(SortByOrder(s))
    ensures multiset(SortByOrder(s)) == multiset(s)
    ensures multiset(Orders(SortByOrder(s))) == multiset(Orders(s))
    ensures |SortByOrder(s)| == |s|
  {
    SortIsSorted(s);
    SortPermutes(s);
    SortKeepsOrderValues(s);
    assert |multiset(SortByOrder(s))| == |multiset(s)|;
  }

  lemma {:induction false} SortIsSorted(s: seq<Banner>)
    ensures SortedByOrder(SortByOrder(s))
    decreases |s|
  {
    if s != [] {
      SortIsSorted(s[1..]);
      InsertKeepsSorted(s[0], SortByOrder(s[1..]));
    }
  }

  lemma {:induction false} SortPermutes(s: seq<Banner>)
    ensures multiset(SortByOrder(s)) == multiset(s)
    decreases |s|
  {
    if s != [] {
      SortPermutes(s[1..]);
      InsertPermutes(s[0], SortByOrder(s[1..]));
      assert s == [s[0]] + s[1..];
    }
  }

  lemma {:induction false} SortKeepsOrderValues(s: seq<Banner>)
    ensures multiset(Orders(SortByOrder(s))) == multiset(Orders(s))
    decreases |s|
  {
    if s != [] {
      SortKeepsOrderValues(s[1..]);
      InsertKeepsOrderValues(s[0], SortByOrder(s[1..]));
      assert s == [s[0]] + s[1..];
      OrdersCons(s[0], s[1..]);
    }
  }

  /** Insertion is stable: for every order value, the banners holding it keep their relative order. */
  lemma {:induction false} InsertStable(b: Banner, s: seq<Banner>, k: int)
    ensures Filter(Insert(b, s), WithOrder(k)) == Filter([b] + s, WithOrder(k))
    decreases |s|
  {
    if !(s == [] || b.order <= s[0].order) {
      var cs := WithOrder(k);
      InsertStable(b, s[1..], k);
      HoldsOne(cs[0], b);
      HoldsOne(cs[0], s[0]);
      var fb := if HoldsAll(cs, b) then [b] else [];
      var f0 := if HoldsAll(cs, s[0]) then [s[0]] else [];
      var rest := Filter(s[1..], cs);
      assert Filter(s, cs) == f0 + rest;
      assert Insert(b, s) == [s[0]] + Insert(b, s[1..]);
      FilterCons(s[0], Insert(b, s[1..]), cs);
      FilterCons(b, s[1..], cs);
      FilterCons(b, s, cs);
      assert fb == [] || f0 == [];
      assert f0 + (fb + rest) == fb + (f0 + rest) by {
        if fb == [] { assert fb + rest == rest && fb + (f0 + rest) == f0 + rest; }
        else { assert f0 + (fb + rest) == fb + rest && f0 + rest == rest; }
      }
    }
  }

  /** Sorting is stable: for every order value, the banners holding it keep their relative order. */
  lemma {:induction false} SortStable(s: seq<Banner>, k: int)
    ensures Filter(SortByOrder(s), WithOrder(k)) == Filter(s, WithOrder(k))
    decreases |s|
  {
    if s != [] {
      SortStable(s[1..], k);
      InsertStable(s[0], SortByOrder(s[1..]), k);
      FilterCons(s[0], SortByOrder(s[1..]), WithOrder(k));
      assert s == [s[0]] + s[1..];
      FilterCons(s[0], s[1..], WithOrder(k));
    }
  }

  /** Re-sorting an already sorted array changes nothing. */
  lemma {:induction false} SortSortedIsIdentity(s: seq<Banner>)
    requires SortedByOrder(s)
    ensures SortByOrder(s) == s
    decreases |s|
  {
    if s != [] {
      SortSortedIsIdentity(s[1..]);
      assert s == [s[0]] + s[1..];
    }
  }

  /**
   * `Insert` into a suffix whose banners before `hi` are all smaller and
   * whose banner at `hi` (if any) is not: `b` lands at `hi`.
   */
  lemma {:induction false} InsertSplitsAt(b: Banner, s: seq<Banner>, lo: nat, hi: nat)
    requires lo <= hi <= |s|
    requires forall k :: lo <= k < hi ==> s[k].order < b.order
    requires hi == |s| || b.order <= s[hi].order
    ensures Insert(b, s[lo..]) == s[lo..hi] + [b] + s[hi..]
    decreases hi - lo
  {
    if lo == hi {
      assert Insert(b, s[lo..]) == [b] + s[lo..];
      assert s[lo..hi] == [];
    } else {
      assert s[lo..][0] == s[lo] && s[lo..][1..] == s[lo + 1..];
      assert Insert(b, s[lo..]) == [s[lo]] + Insert(b, s[lo + 1..]);
      InsertSplitsAt(b, s, lo + 1, hi);
      assert s[lo..hi] == [s[lo]] + s[lo + 1..hi];
    }
  }

  /** A suffix is the run before position `j`, the element at `j` and the run after it. */
  lemma SplitAround<T>(s: seq<T>, i: nat, j: nat)
    requires i <= j < |s|
    ensures s[i..] == s[i..j] + [s[j]] + s[j + 1..]
  {
    assert s[i..] == s[i..j] + s[j..];
    assert s[j..] == [s[j]] + s[j + 1..];
  }

  /**
   * The layout an insertion step leaves: after `i`, the smaller banners one
   * place left, `b` in the hole `j`, and the rest as it was, is the insertion
   * of `b` into the run after `i`.
   */
  lemma InsertLayout(before: seq<Banner>, after: seq<Banner>, i: nat, j: nat, b: Banner)
    requires i <= j < |before| == |after|
    requires after[i..j] == before[i + 1..j + 1]
    requires after[j] == b
    requires after[j + 1..] == before[j + 1..]
    requires forall k :: i < k <= j ==> before[k].order < b.order
    requires j + 1 == |before| || b.order <= before[j + 1].order
    ensures after[i..] == Insert(b, before[i + 1..])
  {
    LayoutSlices(before, after, i, j, b);
    InsertSplitsAt(b, before, i + 1, j + 1);
  }

  /** The suffix from `i` after the step: the shifted run, then `b`, then the untouched rest. */
  lemma LayoutSlices(before: seq<Banner>, after: seq<Banner>, i: nat, j: nat, b: Banner)
    requires i <= j < |before| == |after|
    requires after[i..j] == before[i + 1..j + 1]
    requires after[j] == b
    requires after[j + 1..] == before[j + 1..]
    ensures after[i..] == before[i + 1..j + 1] + [b] + before[j + 1..]
  {
    SplitAround(after, i, j);
  }

  /** One step of the shifting loop: copying the banner after the hole into it moves the hole right. */
  lemma ShiftStep(cur: seq<Banner>, before: seq<Banner>, i: nat, j: nat)
    requires i <= j && j + 1 < |cur| == |before|
    requires cur[..i] == before[..i]
    requires cur[i..j] == before[i + 1..j + 1]
    requires cur[j..] == before[j..]
    ensures cur[j := cur[j + 1]][..i] == before[..i]
    ensures cur[j := cur[j + 1]][i..j + 1] == before[i + 1..j + 2]
    ensures cur[j := cur[j + 1]][j + 1..] == before[j + 1..]
  {
    var nxt := cur[j := cur[j + 1]];
    assert nxt[..i] == cur[..i];
    assert cur[j + 1] == cur[j..][1] == before[j + 1];
    assert nxt[i..j + 1] == cur[i..j] + [before[j + 1]];
    assert before[i + 1..j + 2] == before[i + 1..j + 1] + [before[j + 1]];
    assert nxt[j + 1..] == cur[j..][1..];
    assert before[j + 1..] == before[j..][1..];
  }

  /** Filling the hole with `b` leaves the prefix, the shifted run, `b` and the untouched rest. */
  lemma FillHole(cur: seq<Banner>, before: seq<Banner>, i: nat, j: nat, b: Banner)
    requires i <= j < |cur| == |before|
    requires cur[..i] == before[..i]
    requires cur[i..j] == before[i + 1..j + 1]
    requires cur[j..] == before[j..]
    ensures cur[j := b][..i] == before[..i]
    ensures cur[j := b][i..j] == before[i + 1..j + 1]
    ensures cur[j := b][j] == b
    ensures cur[j := b][j + 1..] == before[j + 1..]
  {
    var nxt := cur[j := b];
    assert nxt[..i] == cur[..i];
    assert nxt[i..j] == cur[i..j];
    assert nxt[j + 1..] == cur[j..][1..];
    assert before[j + 1..] == before[j..][1..];
  }

  /**
   * The shifting loop of one insertion step: move each banner after `i` whose
   * order is smaller than `b`'s one place left, and stop at the hole `j`.
   */
  method ShiftSmaller(a: array<Banner>, i: nat, b: Banner) returns (j: nat)
    requires i < a.Length
    modifies a
    ensures i <= j < a.Length
    ensures a[..i] == old(a[..i])
    ensures a[i..j] == old(a[i + 1..j + 1])
    ensures a[j..] == old(a[j..])
    ensures forall k :: i < k <= j ==> old(a[k]).order < b.order
    ensures j + 1 == a.Length || b.order <= old(a[j + 1]).order
  {
    ghost var before := a[..];
    var n := a.Length;
    j := i;
    while j + 1 < n && a[j + 1].order < b.order
      invariant i <= j < n
      invariant a[..i] == before[..i]
      invariant a[i..j] == before[i + 1..j + 1]
      invariant a[j..] == before[j..]
      invariant forall k :: i < k <= j ==> before[k].order < b.order
    {
      ghost var cur := a[..];
      assert a[j + 1] == before[j + 1] by { assert a[j + 1] == a[j..][1]; }
      a[j] := a[j + 1];
      assert a[..] == cur[j := cur[j + 1]];
      ShiftStep(cur, before, i, j);
      j := j + 1;
    }
    assert a[j + 1..] == before[j + 1..] by { assert a[j..][1..] == a[j + 1..]; assert before[j..][1..] == before[j + 1..]; }
  }

  /** Insert `a[i]` into the sorted run after it, shifting smaller banners one place left. */
  method InsertInPlace(a: array<Banner>, i: nat)
    requires i < a.Length
    modifies a
    ensures a[..i] == old(a[..i])
    ensures a[i..] == Insert(old(a[i]), old(a[i + 1..]))
  {
    var b := a[i];
    ghost var before := a[..];
    var j := ShiftSmaller(a, i, b);
    ghost var cur := a[..];
    a[j] := b;
    assert a[..] == cur[j := b];
    FillHole(cur, before, i, j, b);
    InsertLayout(before, a[..], i, j, b);
  }

  /** One pass of `SortInPlace`: inserting `s[i]` into the sorted tail sorts the tail from `i`. */
  lemma SortStep(s: seq<Banner>, before: seq<Banner>, after: seq<Banner>, i: nat)
    requires i < |s| == |before| == |after|
    requires before[..i + 1] == s[..i + 1]
    requires before[i + 1..] == SortByOrder(s[i + 1..])
    requires after[..i] == before[..i]
    requires after[i..] == Insert(before[i], before[i + 1..])
    ensures after[..i] == s[..i]
    ensures after[i..] == SortByOrder(s[i..])
  {
    assert before[i] == before[..i + 1][i] == s[i];
    assert s[i..] == [s[i]] + s[i + 1..];
    assert s[..i + 1][..i] == s[..i];
    assert before[..i + 1][..i] == before[..i];
  }

  /** Sort the array in place, stably, by ascending `order`: insert each banner, last to first, into the sorted tail. */
  method SortInPlace(a: array<Banner>)
    modifies a
    ensures a[..] == SortByOrder(old(a[..]))
  {
    ghost var s := a[..];
    var i := a.Length;
    while i > 0
      invariant 0 <= i <= a.Length
      invariant a[..i] == s[..i]
      invariant a[i..] == SortByOrder(s[i..])
    {
      i := i - 1;
      ghost var before := a[..];
      InsertInPlace(a, i);
      SortStep(s, before, a[..], i);
    }
    assert s[0..] == s;
  }

  // ------------------------------------------------------------- the view

  /** The status select's clause: the banner's status label equals the selection, or the sentinel. */
  function StatusClauses(statusFilter: string): seq<Clause<Banner>> {
    [Exact((b: Banner) => b.status.Label(), statusFilter)]
  }

  /** What the status clause keeps: the banners with the selected status, or all of them for the sentinel. */
  lemma StatusFilterFacts(banners: seq<Banner>, statusFilter: string)
    ensures forall b :: (b in Filter(banners, StatusClauses(statusFilter))
      <==> b in banners && (statusFilter == All || b.status.Label() == statusFilter))
    ensures statusFilter == All ==> Filter(banners, StatusClauses(statusFilter)) == banners
  {
    var cs := StatusClauses(statusFilter);
    FilterMembers(banners, cs);
    forall b ensures HoldsAll(cs, b) <==> (statusFilter == All || b.status.Label() == statusFilter) {
      HoldsOne(cs[0], b);
    }
    if statusFilter == All { FilterVacuous(banners, cs); }
  }

  /** `filteredBanners`: the banners with the selected status (all for the sentinel), sorted by order. */
  function FilteredBanners(banners: seq<Banner>, statusFilter: string): (r: seq<Banner>)
    ensures SortedByOrder(r)
    ensures multiset(r) == multiset(Filter(banners, StatusClauses(statusFilter)))
    ensures forall b :: b in r <==> b in banners && (statusFilter == All || b.status.Label() == statusFilter)
    ensures statusFilter == All ==> multiset(r) == multiset(banners)
  {
    var kept := Filter(banners, StatusClauses(statusFilter));
    SortFacts(kept);
    StatusFilterFacts(banners, statusFilter);
    assert forall b :: b in SortByOrder(kept) <==> b in multiset(kept);
    SortByOrder(kept)
  }

  // ------------------------------------------------------------------ moves

  /** `findIndex`: the first position holding `id`, or -1. */
  function IndexOf(s: seq<Banner>, id: string): (r: int)
    ensures -1 <= r < |s|
    ensures r >= 0 ==> s[r].id == id && forall k :: 0 <= k < r ==> s[k].id != id
    ensures r == -1 <==> forall k :: 0 <= k < |s| ==> s[k].id != id
    decreases |s|
  {
    if s == [] then -1
    else if s[0].id == id then 0
    else var k := IndexOf(s[1..], id); if k == -1 then -1 else k + 1
  }

  predicate HasId(s: seq<Banner>, id: string) {
    exists k :: 0 <= k < |s| && s[k].id == id
  }

  /** Exchange the `order` values of positions `i` and `j`; every other field and banner stays. */
  function SwapOrders(s: seq<Banner>, i: nat, j: nat): (r: seq<Banner>)
    requires i < |s| && j < |s| && i != j
    ensures |r| == |s|
    ensures r[i] == s[i].(order := s[j].order) && r[j] == s[j].(order := s[i].order)
    ensures forall k :: 0 <= k < |s| && k != i && k != j ==> r[k] == s[k]
  {
    s[i := s[i].(order := s[j].order)][j := s[j].(order := s[i].order)]
  }

  /** Overwriting positions `i < j` leaves the three runs around them in place. */
  lemma UpdateTwoSplits<T>(s: seq<T>, i: nat, j: nat, x: T, y: T)
    requires i < j < |s|
    ensures s[i := x][j := y] == s[..i] + [x] + s[i + 1..j] + [y] + s[j + 1..]
  {
    var r := s[..i] + [x] + s[i + 1..j] + [y] + s[j + 1..];
    forall k | 0 <= k < |s| ensures s[i := x][j := y][k] == r[k] {
      if k < i {
      } else if k == i {
      } else if k < j {
        assert r[k] == s[i + 1..j][k - i - 1];
      } else if k == j {
      } else {
        assert r[k] == s[j + 1..][k - j - 1];
      }
    }
  }

  /** The multiset of two runs and two elements between them does not depend on where the elements sit. */
  lemma MultisetOfFive<T>(a: seq<T>, x: T, m: seq<T>, y: T, c: seq<T>)
    ensures multiset(a + [x] + m + [y] + c) == multiset(a) + multiset(m) + multiset(c) + multiset{x, y}
  {
    calc {
      multiset(a + [x] + m + [y] + c);
      multiset(a + [x] + m + [y]) + multiset(c);
      multiset(a + [x] + m) + multiset{y} + multiset(c);
      multiset(a + [x]) + multiset(m) + multiset{y} + multiset(c);
      multiset(a) + multiset{x} + multiset(m) + multiset{y} + multiset(c);
    }
  }

  /** Overwriting two positions trades those two elements for the new ones. */
  lemma MultisetUpdateTwo<T>(s: seq<T>, i: nat, j: nat, x: T, y: T)
    requires i < j < |s|
    ensures multiset(s[i := x][j := y]) == multiset(s) - multiset{s[i], s[j]} + multiset{x, y}
  {
    UpdateTwoSplits(s, i, j, x, y);
    UpdateTwoSplits(s, i, j, s[i], s[j]);
    assert s[i := s[i]][j := s[j]] == s;
    MultisetOfFive(s[..i], x, s[i + 1..j], y, s[j + 1..]);
    MultisetOfFive(s[..i], s[i], s[i + 1..j], s[j], s[j + 1..]);
  }

  lemma SwapPermutes<T>(s: seq<T>, i: nat, j: nat)
    requires i < j < |s|
    ensures multiset(s[i := s[j]][j := s[i]]) == multiset(s)
  {
    MultisetUpdateTwo(s, i, j, s[j], s[i]);
  }

  /** Exchanging two orders keeps the multiset of order values. */
  lemma SwapKeepsOrderValues(s: seq<Banner>, i: nat, j: nat)
    requires i < j < |s|
    ensures multiset(Orders(SwapOrders(s, i, j))) == multiset(Orders(s))
  {
    var r := SwapOrders(s, i, j);
    var o := Orders(s);
    OrdersAt(s, i);
    OrdersAt(s, j);
    forall k | 0 <= k < |s| ensures Orders(r)[k] == o[i := o[j]][j := o[i]][k] {
      OrdersAt(r, k);
      OrdersAt(s, k);
    }
    assert Orders(r) == o[i := o[j]][j := o[i]];
    SwapPermutes(o, i, j);
  }

  /** `handleMoveUp`: no change at position 0 or for an unknown id; otherwise swap with the previous position and sort. */
  function MovedUp(s: seq<Banner>, id: string): seq<Banner> {
    var k := IndexOf(s, id);
    if k <= 0 then s else SortByOrder(SwapOrders(s, k - 1, k))
  }

  /**
   * `handleMoveDown`: no change at the last position; otherwise swap with the
   * next position and sort. The source has no guard for an unknown id on a
   * non-empty array (it reads position -1), so the id must be present.
   */
  function MovedDown(s: seq<Banner>, id: string): seq<Banner>
    requires |s| == 0 || HasId(s, id)
  {
    var k := IndexOf(s, id);
    if k >= |s| - 1 then s else SortByOrder(SwapOrders(s, k, k + 1))
  }

  /** Without the presence requirement, an unknown id on a non-empty array passes the boundary guard. */
  lemma MoveDownGuardAdmitsUnknownId(s: seq<Banner>, id: string)
    requires |s| > 0 && !HasId(s, id)
    ensures IndexOf(s, id) == -1 && !(IndexOf(s, id) >= |s| - 1)
  {
  }

  lemma MoveUpAtTopIsNoOp(s: seq<Banner>, id: string)
    requires |s| == 0 || !HasId(s, id) || s[0].id == id
    ensures MovedUp(s, id) == s
  {
  }

  lemma MoveDownAtBottomIsNoOp(s: seq<Banner>, id: string)
    requires |s| == 0 || (HasId(s, id) && IndexOf(s, id) == |s| - 1)
    ensures MovedDown(s, id) == s
  {
  }

  /**
   * A move that is not a no-op exchanges the orders of the banner and its
   * neighbour in the full array (not the filtered view): the banner multiset
   * loses those two and gains them with each other's order; the result is sorted.
   */
  lemma {:induction false} MoveUpSwapsNeighbours(s: seq<Banner>, id: string)
    requires IndexOf(s, id) > 0
    ensures var k := IndexOf(s, id);
      && SortedByOrder(MovedUp(s, id))
      && multiset(MovedUp(s, id))
         == multiset(s) - multiset{s[k - 1], s[k]}
            + multiset{s[k - 1].(order := s[k].order), s[k].(order := s[k - 1].order)}
  {
    var k := IndexOf(s, id);
    assert MovedUp(s, id) == SortByOrder(SwapOrders(s, k - 1, k));
    SwapThenSort(s, k - 1, k);
  }

  lemma {:induction false} MoveDownSwapsNeighbours(s: seq<Banner>, id: string)
    requires HasId(s, id) && IndexOf(s, id) < |s| - 1
    ensures var k := IndexOf(s, id);
      && SortedByOrder(MovedDown(s, id))
      && multiset(MovedDown(s, id))
         == multiset(s) - multiset{s[k], s[k + 1]}
            + multiset{s[k].(order := s[k + 1].order), s[k + 1].(order := s[k].order)}
  {
    var k := IndexOf(s, id);
    assert k >= 0 by { var w :| 0 <= w < |s| && s[w].id == id; }
    assert MovedDown(s, id) == SortByOrder(SwapOrders(s, k, k + 1));
    SwapThenSort(s, k, k + 1);
  }

  /** Exchanging two orders and sorting yields a sorted array of the exchanged banners. */
  lemma SwapThenSort(s: seq<Banner>, i: nat, j: nat)
    requires i < j < |s|
    ensures SortedByOrder(SortByOrder(SwapOrders(s, i, j)))
    ensures multiset(SortByOrder(SwapOrders(s, i, j)))
      == multiset(s) - multiset{s[i], s[j]} + multiset{s[i].(order := s[j].order), s[j].(order := s[i].order)}
  {
    SortIsSorted(SwapOrders(s, i, j));
    SortPermutes(SwapOrders(s, i, j));
    SwapMultiset(s, i, j);
  }

  lemma SwapMultiset(s: seq<Banner>, i: nat, j: nat)
    requires i < j < |s|
    ensures multiset(SwapOrders(s, i, j))
      == multiset(s) - multiset{s[i], s[j]} + multiset{s[i].(order := s[j].order), s[j].(order := s[i].order)}
  {
    MultisetUpdateTwo(s, i, j, s[i].(order := s[j].order), s[j].(order := s[i].order));
  }

  /** Moves never create or lose an order value. */
  lemma MoveUpKeepsOrderValues(s: seq<Banner>, id: string)
    ensures multiset(Orders(MovedUp(s, id))) == multiset(Orders(s))
  {
    var k := IndexOf(s, id);
    if k > 0 {
      SortKeepsOrderValues(SwapOrders(s, k - 1, k));
      SwapKeepsOrderValues(s, k - 1, k);
    }
  }

  lemma MoveDownKeepsOrderValues(s: seq<Banner>, id: string)
    requires |s| == 0 || HasId(s, id)
    ensures multiset(Orders(MovedDown(s, id))) == multiset(Orders(s))
  {
    var k := IndexOf(s, id);
    if k < |s| - 1 {
      SortKeepsOrderValues(SwapOrders(s, k, k + 1));
      SwapKeepsOrderValues(s, k, k + 1);
    }
  }

  // ---------------------------------------------------------------- density

  function Range(lo: int, hi: int): (r: seq<int>)
    ensures |r| == if lo <= hi then hi - lo else 0
    decreases hi - lo
  {
    if lo >= hi then [] else Range(lo, hi - 1) + [hi - 1]
  }

  /** The order values are exactly 1..N, each once. */
  predicate Dense(s: seq<Banner>) {
    multiset(Orders(s)) == multiset(Range(1, |s| + 1))
  }

  /** Moves keep a dense numbering dense (the only operations that do). */
  lemma MovesKeepDensity(s: seq<Banner>, id: string)
    requires Dense(s)
    ensures Dense(MovedUp(s, id))
    ensures |s| == 0 || HasId(s, id) ==> Dense(MovedDown(s, id))
  {
    MoveUpKeepsOrderValues(s, id);
    var k := IndexOf(s, id);
    if k > 0 { SortFacts(SwapOrders(s, k - 1, k)); }
    if |s| == 0 || HasId(s, id) {
      MoveDownKeepsOrderValues(s, id);
      if k < |s| - 1 { SortFacts(SwapOrders(s, k, k + 1)); }
    }
  }

  // ------------------------------------------------- delete, add and edit

  /** `handleDelete`: drop every banner with the id, keep the rest in order. */
  function RemoveBanner(s: seq<Banner>, id: string): (r: seq<Banner>)
    ensures forall b :: b in r <==> b in s && b.id != id
    ensures forall b: Banner :: b.id != id ==> multiset(r)[b] == multiset(s)[b]
    ensures Subsequence(r, s)
  {
    var cs := [Where((b: Banner) => b.id != id)];
    FilterMembers(s, cs);
    FilterMultiset(s, cs);
    FilterIsSubsequence(s, cs);
    assert forall b :: HoldsAll(cs, b) <==> b.id != id by {
      forall b ensures HoldsAll(cs, b) <==> b.id != id { HoldsOne(cs[0], b); }
    }
    Filter(s, cs)
  }

  /** The fields the banner form edits. */
  datatype BannerForm = BannerForm(
    title: string, imageUrl: string, linkUrl: Option<string>,
    startDate: string, endDate: string, order: int, status: BannerStatus)

  /** `handleAdd`: the order a new banner is offered. */
  function SuggestedOrder(s: seq<Banner>): int {
    |s| + 1
  }

  function NewBanner(id: string, createdAt: string, f: BannerForm): Banner {
    Banner(id, f.title, f.imageUrl, f.linkUrl, f.startDate, f.endDate, f.order, f.status, createdAt)
  }

  /** `{ ...b, ...bannerData }`: the form's fields over the banner; id and createdAt stay. */
  function ApplyForm(b: Banner, f: BannerForm): Banner {
    b.(title := f.title, imageUrl := f.imageUrl, linkUrl := f.linkUrl,
       startDate := f.startDate, endDate := f.endDate, order := f.order, status := f.status)
  }

  /** Edit: every banner with the edited id takes the form's fields; all others are unchanged. */
  function EditBanner(s: seq<Banner>, id: string, f: BannerForm): (r: seq<Banner>)
    ensures |r| == |s|
    ensures forall k :: 0 <= k < |s| && s[k].id != id ==> r[k] == s[k]
    ensures forall k :: 0 <= k < |s| && s[k].id == id ==>
      r[k].id == id && r[k].createdAt == s[k].createdAt && r[k].order == f.order && r[k].status == f.status
      && r[k] == ApplyForm(s[k], f)
    decreases |s|
  {
    if s == [] then []
    else [if s[0].id == id then ApplyForm(s[0], f) else s[0]] + EditBanner(s[1..], id, f)
  }

  /** Appending a banner with the suggested order keeps a dense numbering dense. */
  lemma AddWithSuggestedOrderKeepsDensity(s: seq<Banner>, id: string, createdAt: string, f: BannerForm)
    requires Dense(s) && f.order == SuggestedOrder(s)
    ensures Dense(s + [NewBanner(id, createdAt, f)])
  {
    var b := NewBanner(id, createdAt, f);
    OrdersAppend(s, [b]);
    assert Orders([b]) == [|s| + 1];
    assert Range(1, |s| + 2) == Range(1, |s| + 1) + [|s| + 1];
  }

  // ------------------------------------------------------------- examples

  const ExampleA := Banner("a", "A", "", None, "", "", 1, Showing, "")
  const ExampleB := Banner("b", "B", "", None, "", "", 2, Waiting, "")
  const ExampleC := Banner("c", "C", "", None, "", "", 3, Showing, "")

  /** Exchanging the orders of b and c in [a:1, b:2, c:3] and sorting gives [a:1, c:2, b:3]. */
  lemma SwapSortExample()
    ensures SortByOrder(SwapOrders([ExampleA, ExampleB, ExampleC], 1, 2))
      == [ExampleA, ExampleC.(order := 2), ExampleB.(order := 3)]
  {
    var t := SwapOrders([ExampleA, ExampleB, ExampleC], 1, 2);
    assert t == [ExampleA, ExampleB.(order := 3), ExampleC.(order := 2)];
    assert SortByOrder(t[2..]) == [ExampleC.(order := 2)];
    assert t[1..][1..] == t[2..];
    assert [ExampleC.(order := 2)][1..] == [];
    assert Insert(ExampleB.(order := 3), [ExampleC.(order := 2)]) == [ExampleC.(order := 2), ExampleB.(order := 3)];
    assert SortByOrder(t[1..]) == [ExampleC.(order := 2), ExampleB.(order := 3)];
  }

  /** [a:1, b:2, c:3], moving b down gives [a:1, c:2, b:3]. */
  lemma MoveDownExample()
    ensures HasId([ExampleA, ExampleB, ExampleC], "b")
    ensures MovedDown([ExampleA, ExampleB, ExampleC], "b")
      == [ExampleA, ExampleC.(order := 2), ExampleB.(order := 3)]
  {
    var s := [ExampleA, ExampleB, ExampleC];
    assert s[1].id == "b";
    assert "a"[0] != "b"[0];
    assert IndexOf(s[1..], "b") == 0;
    assert IndexOf(s, "b") == 1;
    SwapSortExample();
  }

  /** Moving c up in [a:1, b:2, c:3] exchanges its order with b's. */
  lemma MoveUpExample()
    ensures MovedUp([ExampleA, ExampleB, ExampleC], "c") == [ExampleA, ExampleC.(order := 2), ExampleB.(order := 3)]
  {
    var s := [ExampleA, ExampleB, ExampleC];
    assert "a"[0] != "c"[0] && "b"[0] != "c"[0];
    assert IndexOf(s[2..], "c") == 0;
    assert IndexOf(s[1..], "c") == 1;
    assert IndexOf(s, "c") == 2;
    SwapSortExample();
  }

  /** With the filter on 노출중, [a, b, c] shows [a, c]. */
  lemma ShowingFilterExample()
    ensures Filter([ExampleA, ExampleB, ExampleC], StatusClauses("노출중")) == [ExampleA, ExampleC]
  {
    var s := [ExampleA, ExampleB, ExampleC];
    var cs := StatusClauses("노출중");
    HoldsOne(cs[0], ExampleA);
    HoldsOne(cs[0], ExampleB);
    HoldsOne(cs[0], ExampleC);
    assert "대기"[0] != "노출중"[0];
    assert Filter(s[2..], cs) == [ExampleC];
    assert Filter(s[1..], cs) == [ExampleC];
  }

  /**
   * With the filter on 노출중 the view shows [a, c]; moving c up swaps it with
   * the hidden b, so the visible order does not change.
   */
  lemma MoveSwapsWithHiddenNeighbour()
    ensures MovedUp([ExampleA, ExampleB, ExampleC], "c") == [ExampleA, ExampleC.(order := 2), ExampleB.(order := 3)]
    ensures Filter([ExampleA, ExampleB, ExampleC], StatusClauses("노출중")) == [ExampleA, ExampleC]
  {
    MoveUpExample();
    ShowingFilterExample();
  }

  lemma RemoveExample()
    ensures RemoveBanner([ExampleA, ExampleB, ExampleC], "a") == [ExampleB, ExampleC]
  {
    var s := [ExampleA, ExampleB, ExampleC];
    var cs := [Where((b: Banner) => b.id != "a")];
    HoldsOne(cs[0], ExampleA);
    HoldsOne(cs[0], ExampleB);
    HoldsOne(cs[0], ExampleC);
    assert "b"[0] != "a"[0] && "c"[0] != "a"[0];
    assert Filter(s[2..], cs) == [ExampleC];
    assert Filter(s[1..], cs) == [ExampleB, ExampleC];
  }

  /** Deleting from a dense numbering can leave a gap: [a:1, b:2, c:3] without a is not dense. */
  lemma DeleteCanLeaveGap()
    ensures Dense([ExampleA, ExampleB, ExampleC])
    ensures !Dense(RemoveBanner([ExampleA, ExampleB, ExampleC], "a"))
  {
    var s := [ExampleA, ExampleB, ExampleC];
    assert s[1..] == [ExampleB, ExampleC] && s[1..][1..] == [ExampleC];
    assert Orders([ExampleC]) == [3];
    assert Orders(s[1..]) == [2, 3];
    assert Orders(s) == [1, 2, 3];
    assert Range(1, 4) == [1, 2, 3];
    RemoveExample();
    var r := [ExampleB, ExampleC];
    assert Orders(r) == [2, 3];
    assert Range(1, 3) == [1, 2];
    assert multiset(Orders(r))[1] == 0;
    assert multiset(Range(1, 3))[1] == 1;
  }

  // ------------------------------------------------------------------ page

  /** The banner page's state: the banner array and the status selection. */
  class BannersPage {
    var banners: seq<Banner>
    var statusFilter: string

    constructor (initial: seq<Banner>)
      ensures banners == initial && statusFilter == All
    {
      banners := initial;
      statusFilter := All;
    }

    function View(): seq<Banner>
      reads this
    {
      FilteredBanners(banners, statusFilter)
    }

    method SetStatusFilter(value: string)
      modifies this
      ensures statusFilter == value && banners == old(banners)
    {
      statusFilter := value;
    }

    /** The order suggested by `handleAdd`. */
    method SuggestOrder() returns (order: int)
      ensures order == |banners| + 1
    {
      order := |banners| + 1;
    }

    /** Copy the array, exchange the two orders on the copy, sort it in place and store it. */
    method MoveUp(id: string)
      modifies this
      ensures banners == MovedUp(old(banners), id) && statusFilter == old(statusFilter)
    {
      var index := IndexOf(banners, id);
      if index <= 0 {
        return;
      }
      assert MovedUp(banners, id) == SortByOrder(SwapOrders(banners, index - 1, index));
      banners := SwappedSorted(banners, index, index - 1);
    }

    method MoveDown(id: string)
      requires |banners| == 0 || HasId(banners, id)
      modifies this
      ensures banners == MovedDown(old(banners), id) && statusFilter == old(statusFilter)
    {
      var index := IndexOf(banners, id);
      if index >= |banners| - 1 {
        return;
      }
      assert MovedDown(banners, id) == SortByOrder(SwapOrders(banners, index, index + 1));
      banners := SwappedSorted(banners, index, index + 1);
    }

    method Delete(id: string)
      modifies this
      ensures banners == RemoveBanner(old(banners), id) && statusFilter == old(statusFilter)
    {
      banners := RemoveBanner(banners, id);
    }

    /** `handleSubmit` with no banner being edited: append a new banner. */
    method SubmitNew(id: string, createdAt: string, form: BannerForm)
      modifies this
      ensures banners == old(banners) + [NewBanner(id, createdAt, form)]
      ensures statusFilter == old(statusFilter)
    {
      banners := banners + [NewBanner(id, createdAt, form)];
    }

    /** `handleSubmit` while editing the banner with `editingId`. */
    method SubmitEdit(editingId: string, form: BannerForm)
      modifies this
      ensures banners == EditBanner(old(banners), editingId, form)
      ensures statusFilter == old(statusFilter)
    {
      banners := EditBanner(banners, editingId, form);
    }
  }

  /**
   * The body of both move handlers: copy the array, exchange the orders of
   * positions `i` and `j` on the copy, sort the copy in place and return it.
   */
  method SwappedSorted(s: seq<Banner>, i: nat, j: nat) returns (r: seq<Banner>)
    requires i < |s| && j < |s| && i != j
    ensures r == SortByOrder(if i < j then SwapOrders(s, i, j) else SwapOrders(s, j, i))
  {
    var copy := new Banner[|s|](k requires 0 <= k < |s| => s[k]);
    assert copy[..] == s;
    SwapInPlace(copy, i, j);
    SortInPlace(copy);
    r := copy[..];
  }

  /**
   * `newBanners[i].order = newBanners[j].order; newBanners[j].order = current`
   * on the copy: position `i` takes the order of `j` and vice versa.
   */
  method SwapInPlace(a: array<Banner>, i: nat, j: nat)
    requires i < a.Length && j < a.Length && i != j
    modifies a
    ensures a[..] == if i < j then SwapOrders(old(a[..]), i, j) else SwapOrders(old(a[..]), j, i)
  {
    var current := a[i].order;
    a[i] := a[i].(order := a[j].order);
    a[j] := a[j].(order := current);
  }
}
