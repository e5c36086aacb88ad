/** Search and order, as the source's standard library does them. */
module Sorting {
  import opened Core

  /** `slice::binary_search_by`: `cmp(i)` compares entry i with what is looked for. */
  function BinarySearchBy(n: nat, cmp: nat -> int): Option<nat> {
    if n == 0 then None
    else
      var base := SearchBase(cmp, 0, n);
      if cmp(base) == 0 then Some(base) else None
  }

  function SearchBase(cmp: nat -> int, base: nat, size: nat): (r: nat)
    requires size >= 1
    ensures base <= r < base + size
    decreases size
  {
    if size == 1 then base
    else
      var half := size / 2;
      SearchBase(cmp, if cmp(base + half) <= 0 then base + half else base, size - half)
  }

  /** Entries ascend strictly, as the comparison sees them. */
  ghost predicate Ascends(n: nat, cmp: nat -> int) {
    forall i: nat, j: nat :: i < j < n && cmp(i) >= 0 ==> cmp(j) > 0
  }

  lemma EntrySide(n: nat, cmp: nat -> int, mid: nat, k: nat)
    requires Ascends(n, cmp) && mid < n && k < n && cmp(k) == 0
    ensures cmp(mid) <= 0 <==> mid <= k
  {
  }

  lemma {:induction false} SearchBaseFinds(n: nat, cmp: nat -> int, base: nat, size: nat, k: nat)
    requires Ascends(n, cmp) && size >= 1 && base + size <= n && base <= k < base + size && cmp(k) == 0
    ensures SearchBase(cmp, base, size) == k
    decreases size
  {
    hide Ascends;
    if size > 1 {
      var half := size / 2;
      EntrySide(n, cmp, base + half, k);
      var next := if cmp(base + half) <= 0 then base + half else base;
      assert next <= k < next + (size - half);
      assert SearchBase(cmp, base, size) == SearchBase(cmp, next, size - half);
      SearchBaseFinds(n, cmp, next, size - half, k);
    }
  }

  /** On ascending entries the search finds an entry exactly when there is one. */
  lemma SearchFinds(n: nat, cmp: nat -> int)
    requires Ascends(n, cmp)
    ensures match BinarySearchBy(n, cmp)
            case Some(i) => i < n && cmp(i) == 0
            case None => forall k: nat :: k < n ==> cmp(k) != 0
  {
    forall k: nat | k < n && cmp(k) == 0
      ensures BinarySearchBy(n, cmp) == Some(k)
    {
      SearchBaseFinds(n, cmp, 0, n, k);
    }
  }

  function Interval(from: nat, count: nat): (r: set<nat>)
    ensures forall n :: n in r <==> from <= n < from + count
  {
    if count == 0 then {} else Interval(from, count - 1) + {from + count - 1}
  }

  ghost predicate IsLeast(k: nat, s: set<nat>) {
    k in s && forall other :: other in s ==> k <= other
  }

  lemma {:induction false} LeastExists(s: set<nat>, k: nat)
    requires k in s
    ensures exists least :: IsLeast(least, s)
    decreases k
  {
    if !IsLeast(k, s) {
      var lower :| lower in s && lower < k;
      LeastExists(s, lower);
    }
  }

  function Least(s: set<nat>): (least: nat)
    requires s != {}
    ensures IsLeast(least, s)
  {
    assert exists k: nat :: k in s && forall other :: other in s ==> k <= other by {
      var some :| some in s;
      LeastExists(s, some);
      var least :| IsLeast(least, s);
    }
    var k: nat :| k in s && forall other :: other in s ==> k <= other;
    k
  }

  /** The elements of a set, lowest first. */
  function Sorted(s: set<nat>): (r: seq<nat>)
    ensures |r| == |s|
  {
    if s == {} then []
    else
      var least := Least(s);
      [least] + Sorted(s - {least})
  }

  lemma {:induction false} SortedHolds(s: set<nat>, n: nat)
    ensures n in Sorted(s) <==> n in s
    decreases |s|
  {
    if s != {} {
      SortedHolds(s - {Least(s)}, n);
    }
  }

  lemma {:induction false} SortedAscends(s: set<nat>, i: nat, j: nat)
    requires i < j < |Sorted(s)|
    ensures Sorted(s)[i] < Sorted(s)[j]
    decreases |s|
  {
    var least := Least(s);
    var rest := Sorted(s - {least});
    if i == 0 {
      SortedHolds(s - {least}, rest[j - 1]);
    } else {
      SortedAscends(s - {least}, i - 1, j - 1);
    }
  }

  /** Without gaps above `from`. */
  ghost predicate Dense(s: set<nat>, from: nat) {
    (forall n :: n in s ==> n >= from) && forall n, m :: n in s && from <= m <= n ==> m in s
  }

  lemma {:induction false} SortedDense(s: set<nat>, from: nat, i: nat)
    requires Dense(s, from) && i < |Sorted(s)|
    ensures Sorted(s)[i] == from + i
    decreases |s|
  {
    var least := Least(s);
    assert from in s;
    if i > 0 {
      SortedDense(s - {least}, from + 1, i - 1);
    }
  }
}
