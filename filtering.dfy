/**
 * The filter engine shared by every list page: a list of clauses, each a
 * condition on one record, and `Filter`, which keeps, in their original
 * order, the records that satisfy every clause (the pages' single
 * `array.filter` pass with `if (...) return false` lines).
 */
module Filtering {
  import opened Wrappers
  import opened Text

  /** The "all" sentinel of every select box. */
  const All: string := "전체"

  /**
   * One field of a free-text search. `field` is absent for an optional field
   * that is `undefined`; `foldField`/`foldQuery` say whether the field and the
   * query are lower-cased before the substring test.
   */
  datatype Probe<!T> = Probe(field: T -> Option<string>, foldField: bool, foldQuery: bool)

  datatype Clause<!T> =
      /** The query occurs in one of the probed fields; the empty query matches everything. */
    | FreeText(query: string, probes: seq<Probe<T>>, fold: string -> string)
      /** The needle occurs in the field; the empty needle matches everything. */
    | Substring(field: T -> string, needle: string)
      /** The field equals the value, unless the value is the "all" sentinel. */
    | Exact(field: T -> string, value: string)
      /** The field equals the selection, unless nothing (null or "") is selected. */
    | Selected(field: T -> string, selection: Option<string>)
      /** A plain predicate. */
    | Where(test: T -> bool)

  predicate ProbeMatches<T>(p: Probe<T>, x: T, query: string, fold: string -> string) {
    match p.field(x)
    case None => false
    case Some(v) =>
      Contains(if p.foldField then fold(v) else v, if p.foldQuery then fold(query) else query)
  }

  predicate Holds<T>(c: Clause<T>, x: T) {
    match c
    case FreeText(q, ps, fold) => q == "" || exists i :: 0 <= i < |ps| && ProbeMatches(ps[i], x, q, fold)
    case Substring(f, n) => n == "" || Contains(f(x), n)
    case Exact(f, v) => v == All || f(x) == v
    case Selected(f, s) => s.None? || s.value == "" || f(x) == s.value
    case Where(t) => t(x)
  }

  predicate HoldsAll<T>(cs: seq<Clause<T>>, x: T) {
    forall i :: 0 <= i < |cs| ==> Holds(cs[i], x)
  }

  /** A clause in its "no constraint" state: empty text, the sentinel, or no selection. */
  predicate Vacuous<T>(c: Clause<T>) {
    match c
    case FreeText(q, _, _) => q == ""
    case Substring(_, n) => n == ""
    case Exact(_, v) => v == All
    case Selected(_, s) => s.None? || s.value == ""
    case Where(_) => false
  }

  function Filter<T>(xs: seq<T>, cs: seq<Clause<T>>): seq<T>
    decreases |xs|
  {
    if xs == [] then [] else (if HoldsAll(cs, xs[0]) then [xs[0]] else []) + Filter(xs[1..], cs)
  }

  /** `a` is obtained from `b` by deleting elements, keeping the rest in order. */
  predicate Subsequence<T(==)>(a: seq<T>, b: seq<T>)
    decreases |b|
  {
    if a == [] then true
    else if b == [] then false
    else (a[0] == b[0] && Subsequence(a[1..], b[1..])) || Subsequence(a, b[1..])
  }

  // ---------------------------------------------------------------- lemmas

  lemma VacuousHolds<T>(c: Clause<T>, x: T)
    requires Vacuous(c)
    ensures Holds(c, x)
  {
  }

  /** Two clause lists hold together exactly when their concatenation holds. */
  lemma HoldsAllAppend<T>(c1: seq<Clause<T>>, c2: seq<Clause<T>>, x: T)
    ensures HoldsAll(c1 + c2, x) <==> HoldsAll(c1, x) && HoldsAll(c2, x)
  {
    if HoldsAll(c1, x) && HoldsAll(c2, x) {
      forall i | 0 <= i < |c1 + c2| ensures Holds((c1 + c2)[i], x) {
        if i >= |c1| { assert (c1 + c2)[i] == c2[i - |c1|]; }
      }
    }
    if HoldsAll(c1 + c2, x) {
      forall i | 0 <= i < |c1| ensures Holds(c1[i], x) {
        assert (c1 + c2)[i] == c1[i];
      }
      forall i | 0 <= i < |c2| ensures Holds(c2[i], x) {
        assert (c1 + c2)[|c1| + i] == c2[i];
      }
    }
  }

  /** A record is kept exactly when it is in the input and satisfies every clause. */
  lemma {:induction false} FilterMembers<T>(xs: seq<T>, cs: seq<Clause<T>>)
    ensures forall x :: x in Filter(xs, cs) <==> x in xs && HoldsAll(cs, x)
    decreases |xs|
  {
    if xs != [] {
      FilterMembers(xs[1..], cs);
      assert xs == [xs[0]] + xs[1..];
    }
  }

  /** Kept records keep their multiplicity; dropped ones disappear. */
  lemma {:induction false} FilterMultiset<T>(xs: seq<T>, cs: seq<Clause<T>>)
    ensures forall x :: multiset(Filter(xs, cs))[x] == if HoldsAll(cs, x) then multiset(xs)[x] else 0
    decreases |xs|
  {
    if xs != [] {
      FilterMultiset(xs[1..], cs);
      assert xs == [xs[0]] + xs[1..];
    }
  }

  /** The result is an order-preserving subsequence of the input. */
  lemma {:induction false} FilterIsSubsequence<T>(xs: seq<T>, cs: seq<Clause<T>>)
    ensures Subsequence(Filter(xs, cs), xs)
    decreases |xs|
  {
    if xs != [] {
      FilterIsSubsequence(xs[1..], cs);
      var r := Filter(xs, cs);
      if HoldsAll(cs, xs[0]) {
        assert r[0] == xs[0] && r[1..] == Filter(xs[1..], cs);
      } else {
        assert r == Filter(xs[1..], cs);
        if r != [] {
          assert Subsequence(r, xs[1..]);
        }
      }
    }
  }

  lemma {:induction false} FilterLength<T>(xs: seq<T>, cs: seq<Clause<T>>)
    ensures |Filter(xs, cs)| <= |xs|
    decreases |xs|
  {
    if xs != [] { FilterLength(xs[1..], cs); }
  }

  /** Identity law: when every clause is in its "no constraint" state, nothing is dropped. */
  lemma {:induction false} FilterVacuous<T>(xs: seq<T>, cs: seq<Clause<T>>)
    requires forall i :: 0 <= i < |cs| ==> Vacuous(cs[i])
    ensures Filter(xs, cs) == xs
    decreases |xs|
  {
    if xs != [] {
      forall i | 0 <= i < |cs| ensures Holds(cs[i], xs[0]) { VacuousHolds(cs[i], xs[0]); }
      FilterVacuous(xs[1..], cs);
      assert xs == [xs[0]] + xs[1..];
    }
  }

  /** When every record satisfies the clauses, nothing is dropped. */
  lemma {:induction false} FilterAllPass<T>(xs: seq<T>, cs: seq<Clause<T>>)
    requires forall x :: x in xs ==> HoldsAll(cs, x)
    ensures Filter(xs, cs) == xs
    decreases |xs|
  {
    if xs != [] {
      FilterAllPass(xs[1..], cs);
      assert xs == [xs[0]] + xs[1..];
    }
  }

  /** When nothing is dropped, every record satisfies the clauses. */
  lemma {:induction false} FilterFull<T>(xs: seq<T>, cs: seq<Clause<T>>)
    requires |Filter(xs, cs)| == |xs|
    ensures forall x :: x in xs ==> HoldsAll(cs, x)
    decreases |xs|
  {
    if xs != [] {
      FilterLength(xs[1..], cs);
      FilterFull(xs[1..], cs);
      assert xs == [xs[0]] + xs[1..];
    }
  }

  /** Clause lists that agree on every record of the list keep the same records. */
  lemma {:induction false} FilterAgrees<T>(xs: seq<T>, c1: seq<Clause<T>>, c2: seq<Clause<T>>)
    requires forall x :: x in xs ==> (HoldsAll(c1, x) <==> HoldsAll(c2, x))
    ensures Filter(xs, c1) == Filter(xs, c2)
    decreases |xs|
  {
    if xs != [] {
      assert xs[0] in xs;
      assert forall x :: x in xs[1..] ==> x in xs;
      FilterAgrees(xs[1..], c1, c2);
    }
  }

  /** Clauses conjoin: filtering twice is filtering once by both clause lists. */
  lemma {:induction false} FilterConjoin<T>(xs: seq<T>, c1: seq<Clause<T>>, c2: seq<Clause<T>>)
    ensures Filter(Filter(xs, c1), c2) == Filter(xs, c1 + c2)
    decreases |xs|
  {
    if xs != [] {
      FilterConjoin(xs[1..], c1, c2);
      HoldsAllAppend(c1, c2, xs[0]);
      if HoldsAll(c1, xs[0]) {
        FilterCons(xs[0], Filter(xs[1..], c1), c2);
      } else {
        assert Filter(xs, c1) == Filter(xs[1..], c1);
      }
    }
  }

  /** The order of the clauses does not matter. */
  lemma {:induction false} FilterCommutes<T>(xs: seq<T>, c1: seq<Clause<T>>, c2: seq<Clause<T>>)
    ensures Filter(xs, c1 + c2) == Filter(xs, c2 + c1)
    decreases |xs|
  {
    if xs != [] {
      FilterCommutes(xs[1..], c1, c2);
      HoldsAllAppend(c1, c2, xs[0]);
      HoldsAllAppend(c2, c1, xs[0]);
    }
  }

  /** Filtering a prepended record decides that record alone. */
  lemma FilterCons<T>(x: T, xs: seq<T>, cs: seq<Clause<T>>)
    ensures Filter([x] + xs, cs) == (if HoldsAll(cs, x) then [x] else []) + Filter(xs, cs)
  {
    assert ([x] + xs)[0] == x && ([x] + xs)[1..] == xs;
  }

  /** Filtering distributes over concatenation. */
  lemma {:induction false} FilterAppend<T>(xs: seq<T>, ys: seq<T>, cs: seq<Clause<T>>)
    ensures Filter(xs + ys, cs) == Filter(xs, cs) + Filter(ys, cs)
    decreases |xs|
  {
    if xs != [] {
      FilterAppend(xs[1..], ys, cs);
      assert (xs + ys)[0] == xs[0] && (xs + ys)[1..] == xs[1..] + ys;
    } else {
      assert xs + ys == ys;
    }
  }

  /** A single-clause list holds exactly when its clause does. */
  lemma HoldsOne<T>(c: Clause<T>, x: T)
    ensures HoldsAll([c], x) <==> Holds(c, x)
  {
    assert [c][0] == c;
  }

  /** Every prefix of a sequence is a subsequence of it. */
  lemma {:induction false} PrefixIsSubsequence<T>(xs: seq<T>, n: nat)
    requires n <= |xs|
    ensures Subsequence(xs[..n], xs)
    decreases n
  {
    if n > 0 {
      PrefixIsSubsequence(xs[1..], n - 1);
      assert xs[..n][0] == xs[0] && xs[..n][1..] == xs[1..][..n - 1];
    }
  }

  /** The subsequence relation is transitive. */
  lemma {:induction false} SubsequenceTransitive<T>(a: seq<T>, b: seq<T>, c: seq<T>)
    requires Subsequence(a, b) && Subsequence(b, c)
    ensures Subsequence(a, c)
    decreases |c|
  {
    if a != [] {
      assert b != [] && c != [];
      if b[0] == c[0] && Subsequence(b[1..], c[1..]) {
        if a[0] == b[0] && Subsequence(a[1..], b[1..]) {
          SubsequenceTransitive(a[1..], b[1..], c[1..]);
        } else {
          SubsequenceTransitive(a, b[1..], c[1..]);
        }
      } else {
        SubsequenceTransitive(a, b, c[1..]);
      }
    }
  }

  /** Every element of a subsequence is an element of the larger sequence. */
  lemma {:induction false} SubsequenceMembers<T>(a: seq<T>, b: seq<T>)
    requires Subsequence(a, b)
    ensures forall x :: x in a ==> x in b
    decreases |b|
  {
    if a != [] {
      if a[0] == b[0] && Subsequence(a[1..], b[1..]) {
        SubsequenceMembers(a[1..], b[1..]);
        assert a == [a[0]] + a[1..];
      } else {
        SubsequenceMembers(a, b[1..]);
      }
    }
  }
}
