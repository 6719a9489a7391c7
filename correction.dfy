/**
 * Maximum-likelihood correction of a (quasi-)probability distribution: negative values are
 * eliminated one by one, most negative first, each spread evenly over the values after it.
 */
module MaximumLikelihood {
  import opened Common
  import opened Sorting
  import opened Circuits

  // ---------------------------------------------------------------------------------------------
  // Permutations, argsort and gathering.

  /** `order` lists each of `0, ..., n - 1` exactly once. */
  predicate IsPermutation(order: seq<nat>, n: nat)
  {
    multiset(order) == multiset(Range(n))
  }

  lemma {:induction false} RangeDistinct(n: nat)
    ensures Distinct(Range(n))
  {
  }

  lemma {:induction false} PermutationFacts(order: seq<nat>, n: nat)
    requires IsPermutation(order, n)
    ensures |order| == n && Distinct(order)
    ensures forall j :: 0 <= j < |order| ==> order[j] < n
    ensures forall i: nat :: i < n ==> i in order
  {
    calc {
      |order|;
      |multiset(order)|;
      |multiset(Range(n))|;
      n;
    }
    RangeDistinct(n);
    DistinctPermutation(Range(n), order);
    forall j | 0 <= j < |order|
      ensures order[j] < n
    {
      assert order[j] in multiset(order);
    }
    forall i: nat | i < n
      ensures i in order
    {
      assert Range(n)[i] == i;
      assert i in multiset(Range(n));
    }
  }

  /** The value at a position of `p`, and 0 outside it. */
  function Key(p: seq<real>, i: nat): real
  {
    if i < |p| then p[i] else 0.0
  }

  /**
   * numpy's `argsort`: the positions of `p` in ascending order of value. The model lists equal
   * values in index order; numpy's default sort leaves their order unspecified. The correction
   * does not depend on it: tied negative values are all zeroed, and tied survivors are shifted alike.
   */
  function ArgSort(p: seq<real>): (order: seq<nat>)
    ensures IsPermutation(order, |p|)
    ensures |order| == |p| && forall a :: 0 <= a < |order| ==> order[a] < |p|
    ensures forall a, b :: 0 <= a < b < |order| ==> p[order[a]] <= p[order[b]]
  {
    var le := (i: nat, j: nat) => Key(p, i) <= Key(p, j);
    InsertionSortSpec(Range(|p|), le);
    var order := InsertionSort(Range(|p|), le);
    PermutationFacts(order, |p|);
    assert forall a, b :: 0 <= a < b < |order| ==> le(order[a], order[b]);
    order
  }

  /** `s[idx]` for an index array `idx` (numpy fancy indexing). */
  function Gather(s: seq<real>, idx: seq<nat>): (r: seq<real>)
    requires forall j :: 0 <= j < |idx| ==> idx[j] < |s|
    ensures |r| == |idx| && forall j :: 0 <= j < |idx| ==> r[j] == s[idx[j]]
  {
    seq(|idx|, j requires 0 <= j < |idx| => s[idx[j]])
  }

  function Reals(s: seq<nat>): (r: seq<real>)
    ensures |r| == |s| && forall j :: 0 <= j < |s| ==> r[j] == s[j] as real
  {
    seq(|s|, j requires 0 <= j < |s| => s[j] as real)
  }

  /** A strictly increasing sequence of `n` naturals below `n` is `0, ..., n - 1`. */
  lemma {:induction false} StrictlyIncreasingRange(u: seq<nat>, n: nat, a: nat)
    requires |u| == n && forall j :: 0 <= j < n ==> u[j] < n
    requires forall i, j :: 0 <= i < j < n ==> u[i] < u[j]
    requires a < n
    ensures u[a] == a
  {
    GapAtLeast(u, 0, a);
    GapAtLeast(u, a, n - 1);
  }

  lemma {:induction false} GapAtLeast(u: seq<nat>, a: nat, b: nat)
    requires forall i, j :: 0 <= i < j < |u| ==> u[i] < u[j]
    requires a <= b < |u|
    ensures u[b] - u[a] >= b - a
    decreases b - a
  {
    if a < b {
      GapAtLeast(u, a, b - 1);
    }
  }

  /** Sorting a permutation gives its inverse: `np.argsort(prob_order)`. */
  lemma {:induction false} InverseOfPermutation(order: seq<nat>, n: nat)
    requires IsPermutation(order, n)
    ensures var inv := ArgSort(Reals(order));
      && IsPermutation(inv, n) && |inv| == n
      && (forall i :: 0 <= i < n ==> inv[i] < n && order[inv[i]] == i)
      && (forall j :: 0 <= j < n ==> order[j] < n && inv[order[j]] == j)
  {
    PermutationFacts(order, n);
    var inv := ArgSort(Reals(order));
    PermutationFacts(inv, n);
    var u := seq(n, a requires 0 <= a < n => order[inv[a]]);
    forall a, b | 0 <= a < b < n
      ensures u[a] < u[b]
    {
      assert Reals(order)[inv[a]] <= Reals(order)[inv[b]];
      assert inv[a] != inv[b];
    }
    forall i | 0 <= i < n
      ensures order[inv[i]] == i
    {
      StrictlyIncreasingRange(u, n, i);
    }
    forall j | 0 <= j < n
      ensures inv[order[j]] == j
    {
      var i := order[j];
      assert order[inv[i]] == i;
    }
  }

  /** Gathering through two index lists with the same elements gives the same multiset. */
  lemma {:induction false} GatherMultiset(p: seq<real>, o1: seq<nat>, o2: seq<nat>)
    requires forall j :: 0 <= j < |o1| ==> o1[j] < |p|
    requires forall j :: 0 <= j < |o2| ==> o2[j] < |p|
    requires multiset(o1) == multiset(o2)
    ensures multiset(Gather(p, o1)) == multiset(Gather(p, o2))
    decreases |o1|
  {
    if o1 == [] {
      assert |o2| == |multiset(o2)| == 0;
    } else {
      var init, x := o1[..|o1| - 1], o1[|o1| - 1];
      var k := LastFound(o1, o2);
      var rest := GatherRemove(p, o2, k);
      LastRemoved(o1, o2, k);
      GatherMultiset(p, init, rest);
      GatherLast(p, o1);
      GatheredAt(p, o2, k);
      CancelOne(multiset(Gather(p, o1)), multiset(Gather(p, init)), multiset(Gather(p, o2)), p[x]);
    }
  }

  /** Where the last element of `o1` sits in a rearrangement `o2` of it. */
  lemma {:induction false} LastFound(o1: seq<nat>, o2: seq<nat>) returns (k: nat)
    requires o1 != [] && multiset(o1) == multiset(o2)
    ensures k < |o2| && o2[k] == o1[|o1| - 1]
  {
    var x := o1[|o1| - 1];
    assert x in multiset(o2) by {
      assert o1 == o1[..|o1| - 1] + [x];
    }
    k :| 0 <= k < |o2| && o2[k] == x;
  }

  /** Dropping the last element of `o1` and the matching one of `o2` leaves two rearrangements. */
  lemma {:induction false} LastRemoved(o1: seq<nat>, o2: seq<nat>, k: nat)
    requires o1 != [] && multiset(o1) == multiset(o2) && k < |o2| && o2[k] == o1[|o1| - 1]
    ensures multiset(o1[..|o1| - 1]) == multiset(o2[..k] + o2[k + 1..])
  {
    assert o1 == o1[..|o1| - 1] + [o1[|o1| - 1]];
    MultisetRemove(o2, k);
  }

  lemma {:induction false} GatheredAt(p: seq<real>, o: seq<nat>, k: nat)
    requires forall j :: 0 <= j < |o| ==> o[j] < |p|
    requires k < |o|
    ensures p[o[k]] in multiset(Gather(p, o))
  {
    assert Gather(p, o)[k] == p[o[k]];
  }

  lemma {:induction false} CancelOne<T>(m1: multiset<T>, mi: multiset<T>, m2: multiset<T>, v: T)
    requires m1 == mi + multiset{v} && mi == m2 - multiset{v} && v in m2
    ensures m1 == m2
  {
  }

  lemma {:induction false} GatherLast(p: seq<real>, o: seq<nat>)
    requires forall j :: 0 <= j < |o| ==> o[j] < |p|
    requires o != []
    ensures multiset(Gather(p, o)) == multiset(Gather(p, o[..|o| - 1])) + multiset{p[o[|o| - 1]]}
  {
    var g := Gather(p, o);
    assert g == Gather(p, o[..|o| - 1]) + [p[o[|o| - 1]]];
  }

  /** `o` without its element at `k`, and the gathered values without the one it picked. */
  lemma {:induction false} GatherRemove(p: seq<real>, o: seq<nat>, k: nat) returns (rest: seq<nat>)
    requires forall j :: 0 <= j < |o| ==> o[j] < |p|
    requires k < |o|
    ensures rest == o[..k] + o[k + 1..]
    ensures forall j :: 0 <= j < |rest| ==> rest[j] < |p|
    ensures multiset(Gather(p, rest)) == multiset(Gather(p, o)) - multiset{p[o[k]]}
  {
    rest := o[..k] + o[k + 1..];
    var g := Gather(p, o);
    GatherSplit(p, o[..k], o[k + 1..]);
    assert Gather(p, o[..k]) == g[..k];
    assert Gather(p, o[k + 1..]) == g[k + 1..];
    MultisetRemove(g, k);
  }

  lemma {:induction false} GatherSplit(p: seq<real>, a: seq<nat>, b: seq<nat>)
    requires forall j :: 0 <= j < |a| ==> a[j] < |p|
    requires forall j :: 0 <= j < |b| ==> b[j] < |p|
    ensures forall j :: 0 <= j < |a + b| ==> (a + b)[j] < |p|
    ensures Gather(p, a + b) == Gather(p, a) + Gather(p, b)
  {
    assert forall j :: 0 <= j < |a + b| ==> (a + b)[j] == if j < |a| then a[j] else b[j - |a|];
  }

  /** Taking out the element at `k`. */
  lemma {:induction false} SumRemove(b: seq<real>, k: nat)
    requires k < |b|
    ensures Sum(b) == Sum(b[..k] + b[k + 1..]) + b[k]
  {
    var left, right := b[..k], b[k + 1..];
    assert b == left + ([b[k]] + right);
    SumAppend(left, [b[k]] + right);
    SumAppend([b[k]], right);
    SumAppend(left, right);
    SumSingle(b[k]);
  }

  lemma {:induction false} MultisetRemove<T>(b: seq<T>, k: nat)
    requires k < |b|
    ensures multiset(b[..k] + b[k + 1..]) == multiset(b) - multiset{b[k]}
  {
    assert b == b[..k] + [b[k]] + b[k + 1..];
  }

  lemma {:induction false} SumPermutation(a: seq<real>, b: seq<real>)
    requires multiset(a) == multiset(b)
    ensures Sum(a) == Sum(b)
    decreases |a|
  {
    if a == [] {
      assert |b| == |multiset(b)| == 0;
    } else {
      var init, x := a[..|a| - 1], a[|a| - 1];
      InitLast(a);
      assert x in multiset(b);
      var k :| 0 <= k < |b| && b[k] == x;
      SumRemove(b, k);
      MultisetRemove(b, k);
      assert multiset(init) == multiset(a) - multiset{x};
      SumPermutation(init, b[..k] + b[k + 1..]);
      SumAppend(init, [x]);
      SumSingle(x);
    }
  }

  /** Gathering through a permutation reorders the values. */
  lemma {:induction false} GatherPermutes(p: seq<real>, order: seq<nat>)
    requires IsPermutation(order, |p|)
    ensures forall j :: 0 <= j < |order| ==> order[j] < |p|
    ensures multiset(Gather(p, order)) == multiset(p)
  {
    PermutationFacts(order, |p|);
    var id := Range(|p|);
    GatherMultiset(p, order, id);
    assert Gather(p, id) == p;
  }

  /** Gathering through a permutation keeps the sum. */
  lemma {:induction false} GatherSum(p: seq<real>, order: seq<nat>)
    requires IsPermutation(order, |p|)
    ensures forall j :: 0 <= j < |order| ==> order[j] < |p|
    ensures Sum(Gather(p, order)) == Sum(p)
  {
    GatherPermutes(p, order);
    SumPermutation(Gather(p, order), p);
  }

  // ---------------------------------------------------------------------------------------------
  // Elimination on the sorted values.

  /** `1 / (n - idx - 1)` of the value at `idx`: the share each later value receives. */
  function Share(s: seq<real>, idx: nat): real
    requires idx < |s|
  {
    if |s| - idx - 1 == 0 then 0.0 else s[idx] / (|s| - idx - 1) as real
  }

  /**
   * One step: `sorted[idx] = 0` and `sorted[idx + 1:] += val / (n - idx - 1)`. On the last value
   * numpy divides by zero without raising and the slice is empty, so nothing is added.
   */
  function Spread(s: seq<real>, idx: nat): (r: seq<real>)
    requires idx < |s|
    ensures |r| == |s|
  {
    seq(|s|, k requires 0 <= k < |s| => if k < idx then s[k] else if k == idx then 0.0 else s[k] + Share(s, idx))
  }

  /** The loop from position `idx` on: stop at the first non-negative value. */
  function Eliminate(s: seq<real>, idx: nat): (r: seq<real>)
    requires idx <= |s|
    ensures |r| == |s|
    decreases |s| - idx
  {
    if idx == |s| || s[idx] >= 0.0 then s else Eliminate(Spread(s, idx), idx + 1)
  }

  /** Where the loop stops: the number of zeroed values. */
  function Stop(s: seq<real>, idx: nat): nat
    requires idx <= |s|
    decreases |s| - idx
  {
    if idx == |s| || s[idx] >= 0.0 then idx else Stop(Spread(s, idx), idx + 1)
  }

  /** The total added to every surviving value. */
  function TotalShift(s: seq<real>, idx: nat): real
    requires idx <= |s|
    decreases |s| - idx
  {
    if idx == |s| || s[idx] >= 0.0 then 0.0 else Share(s, idx) + TotalShift(Spread(s, idx), idx + 1)
  }

  predicate SortedFrom(s: seq<real>, idx: nat)
  {
    forall i, j :: idx <= i < j < |s| ==> s[i] <= s[j]
  }

  predicate ZeroBefore(s: seq<real>, idx: nat)
  {
    forall k :: 0 <= k < idx && k < |s| ==> s[k] == 0.0
  }

  /**
   * The values before `idx` are kept, the values from `idx` to the stop are zeroed, and every
   * later value is moved by the same total shift, which is never positive.
   */
  lemma {:induction false} EliminateShape(s: seq<real>, idx: nat)
    requires idx <= |s|
    ensures var r, z, c := Eliminate(s, idx), Stop(s, idx), TotalShift(s, idx);
      && idx <= z <= |s| && c <= 0.0
      && (forall k :: 0 <= k < idx ==> r[k] == s[k])
      && (forall k :: idx <= k < z ==> r[k] == 0.0)
      && (forall k :: z <= k < |s| ==> r[k] == s[k] + c)
    decreases |s| - idx
  {
    if idx < |s| && s[idx] < 0.0 {
      var t := Spread(s, idx);
      EliminateShape(t, idx + 1);
      if |s| - idx - 1 > 0 {
        assert s[idx] / (|s| - idx - 1) as real <= 0.0;
      }
    }
  }

  /** Sorted values stay sorted after the zeroed prefix, and every result value is non-negative. */
  lemma {:induction false} EliminateNonNegative(s: seq<real>, idx: nat)
    requires idx <= |s| && ZeroBefore(s, idx) && SortedFrom(s, idx)
    ensures forall k :: 0 <= k < |s| ==> Eliminate(s, idx)[k] >= 0.0
    decreases |s| - idx
  {
    if idx < |s| && s[idx] < 0.0 {
      var t := Spread(s, idx);
      assert ZeroBefore(t, idx + 1);
      assert SortedFrom(t, idx + 1) by {
        forall i, j | idx + 1 <= i < j < |t|
          ensures t[i] <= t[j]
        {
          assert t[i] == s[i] + Share(s, idx) && t[j] == s[j] + Share(s, idx);
        }
      }
      EliminateNonNegative(t, idx + 1);
    } else if idx < |s| {
      forall k | 0 <= k < |s|
        ensures s[k] >= 0.0
      {
        if k > idx {
          assert s[idx] <= s[k];
        }
      }
    }
  }

  lemma {:induction false} SumZeros(s: seq<real>)
    requires forall k :: 0 <= k < |s| ==> s[k] == 0.0
    ensures Sum(s) == 0.0
  {
    if s != [] {
      SumZeros(s[..|s| - 1]);
    }
  }

  lemma {:induction false} SumShifted(s: seq<real>, t: seq<real>, c: real)
    requires |t| == |s| && forall k :: 0 <= k < |s| ==> t[k] == s[k] + c
    ensures Sum(t) == Sum(s) + |s| as real * c
  {
    if s != [] {
      SumShifted(s[..|s| - 1], t[..|t| - 1], c);
    }
  }

  /** A sum split around position `k`. */
  lemma {:induction false} SumAround(s: seq<real>, k: nat)
    requires k < |s|
    ensures Sum(s) == Sum(s[..k]) + s[k] + Sum(s[k + 1..])
  {
    assert s == s[..k] + ([s[k]] + s[k + 1..]);
    SumAppend(s[..k], [s[k]] + s[k + 1..]);
    SumAppend([s[k]], s[k + 1..]);
    SumSingle(s[k]);
  }

  /** After one step, the values after `idx` sum to their old sum plus one share each. */
  lemma {:induction false} SpreadTail(s: seq<real>, idx: nat)
    requires idx < |s|
    ensures Sum(Spread(s, idx)[idx + 1..]) == Sum(s[idx + 1..]) + (|s| - idx - 1) as real * Share(s, idx)
  {
    var t := Spread(s, idx);
    var tail, tail' := s[idx + 1..], t[idx + 1..];
    forall k | 0 <= k < |tail|
      ensures tail'[k] == tail[k] + Share(s, idx)
    {
      assert tail'[k] == t[idx + 1 + k];
    }
    SumShifted(tail, tail', Share(s, idx));
  }

  lemma {:induction false} MulDiv(x: real, n: real)
    requires n != 0.0
    ensures n * (x / n) == x
  {
  }

  /** The shares handed out add up to the eliminated value, unless it was the last one. */
  lemma {:induction false} SharesAddUp(s: seq<real>, idx: nat)
    requires idx < |s|
    ensures (|s| - idx - 1) as real * Share(s, idx) == if idx == |s| - 1 then 0.0 else s[idx]
  {
    if idx < |s| - 1 {
      MulDiv(s[idx], (|s| - idx - 1) as real);
    }
  }

  /** One step keeps the total unless it is the last value, whose value is then dropped. */
  lemma {:induction false} SpreadSum(s: seq<real>, idx: nat)
    requires idx < |s|
    ensures Sum(Spread(s, idx)) == if idx == |s| - 1 then Sum(s) - s[idx] else Sum(s)
  {
    var t := Spread(s, idx);
    SumAround(s, idx);
    SumAround(t, idx);
    assert t[..idx] == s[..idx];
    SpreadTail(s, idx);
    SharesAddUp(s, idx);
  }

  /** With a non-negative total, elimination keeps the total (the trace of the Choi matrix). */
  lemma {:induction false} EliminateSum(s: seq<real>, idx: nat)
    requires idx <= |s| && ZeroBefore(s, idx) && Sum(s) >= 0.0
    ensures Sum(Eliminate(s, idx)) == Sum(s)
    decreases |s| - idx
  {
    if idx < |s| && s[idx] < 0.0 {
      if idx == |s| - 1 {
        assert s == s[..idx] + [s[idx]];
        SumZeros(s[..idx]);
        SumAppend(s[..idx], [s[idx]]);
        SumSingle(s[idx]);
        assert false;
      }
      SpreadSum(s, idx);
      EliminateSum(Spread(s, idx), idx + 1);
    }
  }

  // ---------------------------------------------------------------------------------------------
  // The whole correction.

  /** `correct_probability_distribution` on the flattened values. */
  function CorrectedDistribution(p: seq<real>): (r: seq<real>)
    ensures |r| == |p|
  {
    var order := ArgSort(p);
    var inverse := ArgSort(Reals(order));
    var eliminated := Eliminate(Gather(p, order), 0);
    PermutationFacts(inverse, |p|);
    Gather(eliminated, inverse)
  }

  /** `sorted[from:] += share`, in place. */
  method AddToTail(a: array<real>, from: nat, share: real)
    requires from <= a.Length
    modifies a
    ensures forall k :: 0 <= k < a.Length ==> a[k] == if k >= from then old(a[k]) + share else old(a[k])
  {
    for k := from to a.Length
      invariant forall i :: 0 <= i < a.Length ==> a[i] == if from <= i < k then old(a[i]) + share else old(a[i])
    {
      a[k] := a[k] + share;
    }
  }

  /** One pass of the loop body on the sorted buffer, for a negative value at `idx`. */
  method EliminateStep(sorted: array<real>, idx: nat)
    requires idx < sorted.Length
    modifies sorted
    ensures sorted[..] == Spread(old(sorted[..]), idx)
  {
    ghost var before := sorted[..];
    var val := sorted[idx];
    sorted[idx] := 0.0;
    var remaining := sorted.Length - idx - 1;
    if remaining > 0 {
      assert val / remaining as real == Share(before, idx);
      AddToTail(sorted, idx + 1, val / remaining as real);
    }
    forall k | 0 <= k < sorted.Length
      ensures sorted[k] == Spread(before, idx)[k]
    {
    }
    assert sorted[..] == Spread(before, idx);
  }

  /**
   * `correct_probability_distribution`: sort, zero each negative value from the most negative up
   * while spreading it over the values after it, and write the values back to their positions.
   */
  method CorrectProbabilityDistribution(probabilities: seq<real>) returns (corrected: seq<real>)
    ensures corrected == CorrectedDistribution(probabilities)
  {
    var n := |probabilities|;
    var order := ArgSort(probabilities);
    var start := Gather(probabilities, order);
    var sorted := new real[n](j requires 0 <= j < n => start[j]);
    assert sorted[..] == start;
    EliminateInPlace(sorted);
    // `np.arange(n)[np.argsort(prob_order)]` is `np.argsort(prob_order)` itself.
    var inverse := ArgSort(Reals(order));
    PermutationFacts(inverse, n);
    corrected := Gather(sorted[..], inverse);
  }

  /** The loop of lines 83-88 on the sorted values: the negative ones zeroed from the most negative up. */
  method EliminateInPlace(sorted: array<real>)
    modifies sorted
    ensures sorted[..] == Eliminate(old(sorted[..]), 0)
  {
    var n := sorted.Length;
    ghost var start := sorted[..];
    var idx := 0;
    while idx < n
      invariant idx <= n
      invariant Eliminate(sorted[..], idx) == Eliminate(start, 0)
      decreases n - idx
    {
      var val := sorted[idx];
      if val >= 0.0 {
        break;
      }
      EliminateStep(sorted, idx);
      idx := idx + 1;
    }
    assert Eliminate(sorted[..], idx) == sorted[..];
  }

  /** The result has the input's size and every value is non-negative. */
  lemma {:induction false} CorrectedNonNegative(p: seq<real>)
    ensures |CorrectedDistribution(p)| == |p|
    ensures forall i :: 0 <= i < |p| ==> CorrectedDistribution(p)[i] >= 0.0
  {
    var order := ArgSort(p);
    var start := Gather(p, order);
    EliminateNonNegative(start, 0);
    PermutationFacts(ArgSort(Reals(order)), |p|);
  }

  /** The value sorted to position `j` comes back at its original position `order[j]`. */
  lemma {:induction false} CorrectedWriteBack(p: seq<real>, j: nat)
    requires j < |p|
    ensures var order := ArgSort(p);
      CorrectedDistribution(p)[order[j]] == Eliminate(Gather(p, order), 0)[j]
  {
    InverseOfPermutation(ArgSort(p), |p|);
  }

  /**
   * The values sorted before the stop are zeroed, every other value is moved by the same
   * non-positive amount, and a zeroed value was never larger than a surviving one.
   */
  lemma {:induction false} CorrectedShape(p: seq<real>, j: nat)
    requires j < |p|
    ensures var order := ArgSort(p);
      var start := Gather(p, order);
      var z, c := Stop(start, 0), TotalShift(start, 0);
      && c <= 0.0 && z <= |p|
      && CorrectedDistribution(p)[order[j]] == (if j < z then 0.0 else p[order[j]] + c)
      && (j < z ==> forall j' :: z <= j' < |p| ==> p[order[j]] <= p[order[j']])
  {
    var order := ArgSort(p);
    EliminateShape(Gather(p, order), 0);
    CorrectedWriteBack(p, j);
  }

  /** With a non-negative total the total is kept: the trace is preserved. */
  lemma {:induction false} CorrectedSum(p: seq<real>)
    requires Sum(p) >= 0.0
    ensures Sum(CorrectedDistribution(p)) == Sum(p)
  {
    var order := ArgSort(p);
    var start := Gather(p, order);
    GatherSum(p, order);
    EliminateSum(start, 0);
    var eliminated := Eliminate(start, 0);
    InverseOfPermutation(order, |p|);
    GatherSum(eliminated, ArgSort(Reals(order)));
  }

  /** A distribution without negative values is returned unchanged. */
  lemma {:induction false} CorrectedUnchanged(p: seq<real>)
    requires forall i :: 0 <= i < |p| ==> p[i] >= 0.0
    ensures CorrectedDistribution(p) == p
  {
    var order := ArgSort(p);
    InverseOfPermutation(order, |p|);
    var start := Gather(p, order);
    assert Eliminate(start, 0) == start;
  }

  /** Correcting twice is correcting once. */
  lemma {:induction false} CorrectedIdempotent(p: seq<real>)
    ensures CorrectedDistribution(CorrectedDistribution(p)) == CorrectedDistribution(p)
  {
    CorrectedNonNegative(p);
    CorrectedUnchanged(CorrectedDistribution(p));
  }
}
