/**
 * The two collection operations the computed properties are built from:
 * Swift's `filter` and `reduce(0) { $0 + … }`, over any record type.
 */
module Seqs {
  import opened Wrappers

  /** The elements of `xs` that satisfy `keep`, in their original order. */
  function Filter<T(!new)>(xs: seq<T>, keep: T -> bool): (r: seq<T>)
    ensures |r| <= |xs|
    ensures forall x :: x in r <==> x in xs && keep(x)
  {
    if xs == [] then []
    else (if keep(xs[0]) then [xs[0]] else []) + Filter(xs[1..], keep)
  }

  /** The sum of `amount` over `xs`, starting from 0. */
  function Sum<T>(xs: seq<T>, amount: T -> real): real
  {
    if xs == [] then 0.0 else amount(xs[0]) + Sum(xs[1..], amount)
  }

  /** Every element of `xs` has a non-negative amount. */
  predicate NonNegative<T>(xs: seq<T>, amount: T -> real)
  {
    forall i :: 0 <= i < |xs| ==> amount(xs[i]) >= 0.0
  }

  /** A filtered total of non-negative amounts lies between 0 and the whole total. */
  lemma {:induction false} FilteredSumBounds<T(!new)>(xs: seq<T>, keep: T -> bool, amount: T -> real)
    ensures NonNegative(xs, amount) ==> 0.0 <= Sum(Filter(xs, keep), amount) <= Sum(xs, amount)
  {
    if xs != [] && NonNegative(xs, amount) {
      var x, rest := xs[0], xs[1..];
      assert NonNegative(rest, amount) by {
        forall i | 0 <= i < |rest| ensures amount(rest[i]) >= 0.0 {
          assert rest[i] == xs[i + 1];
        }
      }
      FilteredSumBounds(rest, keep, amount);
      if keep(x) {
        assert ([x] + Filter(rest, keep))[1..] == Filter(rest, keep);
      } else {
        assert Filter(xs, keep) == Filter(rest, keep);
      }
    }
  }

  /** Filtering is order preserving: it distributes over concatenation. */
  lemma {:induction false} FilterAppend<T(!new)>(xs: seq<T>, ys: seq<T>, keep: T -> bool)
    ensures Filter(xs + ys, keep) == Filter(xs, keep) + Filter(ys, keep)
  {
    if xs != [] {
      assert (xs + ys)[1..] == xs[1..] + ys;
      FilterAppend(xs[1..], ys, keep);
    } else {
      assert xs + ys == ys;
    }
  }

  /** Filtering with a test every element passes gives the sequence back. */
  lemma {:induction false} FilterKeepsAll<T(!new)>(xs: seq<T>, keep: T -> bool)
    requires forall x :: x in xs ==> keep(x)
    ensures Filter(xs, keep) == xs
  {
    if xs != [] {
      FilterKeepsAll(xs[1..], keep);
    }
  }

  /** The sum of a concatenation is the sum of the parts. */
  lemma {:induction false} SumAppend<T>(xs: seq<T>, ys: seq<T>, amount: T -> real)
    ensures Sum(xs + ys, amount) == Sum(xs, amount) + Sum(ys, amount)
  {
    if xs != [] {
      assert (xs + ys)[1..] == xs[1..] + ys;
      SumAppend(xs[1..], ys, amount);
    } else {
      assert xs + ys == ys;
    }
  }

  /**
   * When `left` and `right` never both hold and together pick exactly what
   * `whole` picks, their totals add up to the total of `whole`.
   */
  lemma {:induction false} SumPartition<T(!new)>(xs: seq<T>, left: T -> bool, right: T -> bool, whole: T -> bool, amount: T -> real)
    requires forall x :: x in xs ==> !(left(x) && right(x))
    requires forall x :: x in xs ==> (whole(x) <==> left(x) || right(x))
    ensures Sum(Filter(xs, left), amount) + Sum(Filter(xs, right), amount) == Sum(Filter(xs, whole), amount)
  {
    if xs != [] {
      var x, rest := xs[0], xs[1..];
      assert forall y :: y in rest ==> y in xs;
      SumPartition(rest, left, right, whole, amount);
      assert x in xs;
      if left(x) {
        assert Filter(xs, right) == Filter(rest, right);
        assert Sum(Filter(xs, left), amount) == amount(x) + Sum(Filter(rest, left), amount) by {
          assert ([x] + Filter(rest, left))[1..] == Filter(rest, left);
        }
        assert Sum(Filter(xs, whole), amount) == amount(x) + Sum(Filter(rest, whole), amount) by {
          assert ([x] + Filter(rest, whole))[1..] == Filter(rest, whole);
        }
      } else if right(x) {
        assert Filter(xs, left) == Filter(rest, left);
        assert Sum(Filter(xs, right), amount) == amount(x) + Sum(Filter(rest, right), amount) by {
          assert ([x] + Filter(rest, right))[1..] == Filter(rest, right);
        }
        assert Sum(Filter(xs, whole), amount) == amount(x) + Sum(Filter(rest, whole), amount) by {
          assert ([x] + Filter(rest, whole))[1..] == Filter(rest, whole);
        }
      } else {
        assert Filter(xs, left) == Filter(rest, left);
        assert Filter(xs, right) == Filter(rest, right);
        assert Filter(xs, whole) == Filter(rest, whole);
      }
    }
  }

  /**
   * Putting one more element `x` between `xs` and `ys` changes the filtered
   * total by `amount(x)` when `x` passes the filter, and not at all otherwise.
   */
  lemma FilteredSumInsert<T(!new)>(xs: seq<T>, x: T, ys: seq<T>, keep: T -> bool, amount: T -> real)
    ensures Sum(Filter(xs + [x] + ys, keep), amount)
         == Sum(Filter(xs + ys, keep), amount) + (if keep(x) then amount(x) else 0.0)
  {
    FilterAppend(xs + [x], ys, keep);
    FilterAppend(xs, [x], keep);
    FilterAppend(xs, ys, keep);
    var fx, fy := Filter(xs, keep), Filter(ys, keep);
    var mid := Filter([x], keep);
    SumAppend(fx + mid, fy, amount);
    SumAppend(fx, mid, amount);
    SumAppend(fx, fy, amount);
  }

  /** `offsets` are distinct indexes of a sequence of length `n`, in ascending order (an IndexSet). */
  predicate IsIndexSet(offsets: seq<int>, n: int)
  {
    (forall k :: 0 <= k < |offsets| ==> 0 <= offsets[k] < n)
    && (forall j, k :: 0 <= j < k < |offsets| ==> offsets[j] < offsets[k])
  }

  /**
   * The ids found at `offsets` of `ids`, in offset order, skipping the
   * positions that hold no id.
   */
  function PickIds<I>(ids: seq<Option<I>>, offsets: seq<int>): (r: seq<I>)
    requires forall k :: 0 <= k < |offsets| ==> 0 <= offsets[k] < |ids|
    ensures |r| <= |offsets|
    ensures (forall k :: 0 <= k < |offsets| ==> ids[offsets[k]].Some?) ==> |r| == |offsets|
  {
    if offsets == [] then []
    else
      var n := |offsets| - 1;
      PickIds(ids, offsets[..n]) + (match ids[offsets[n]] case Some(i) => [i] case None => [])
  }

  /** An id is picked exactly when some offset points at a position holding it. */
  lemma {:induction false} PickIdsMembers<I>(ids: seq<Option<I>>, offsets: seq<int>, i: I)
    requires forall k :: 0 <= k < |offsets| ==> 0 <= offsets[k] < |ids|
    ensures i in PickIds(ids, offsets) <==> exists k :: 0 <= k < |offsets| && ids[offsets[k]] == Some(i)
  {
    if offsets != [] {
      var n := |offsets| - 1;
      var init := offsets[..n];
      PickIdsMembers(ids, init, i);
      var last: seq<I> := match ids[offsets[n]] case Some(j) => [j] case None => [];
      assert PickIds(ids, offsets) == PickIds(ids, init) + last;
      if i in PickIds(ids, init) {
        var k :| 0 <= k < |init| && ids[init[k]] == Some(i);
        assert offsets[k] == init[k];
      } else if i in last {
        assert ids[offsets[n]] == Some(i);
      }
      if exists k :: 0 <= k < |offsets| && ids[offsets[k]] == Some(i) {
        var k :| 0 <= k < |offsets| && ids[offsets[k]] == Some(i);
        if k < n {
          assert init[k] == offsets[k];
        } else {
          assert i in last;
        }
      }
    }
  }
}
