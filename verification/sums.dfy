/**
 * Finite sums of reals, the arithmetic behind arrival clocks, cumulative
 * probabilities, utilization and the rescaling of expected frequencies.
 */
module Sums {

  /** Sum of a sequence, peeling off the last element (the order the pages append in). */
  function Sum(s: seq<real>): real
  {
    if |s| == 0 then 0.0 else Sum(s[..|s| - 1]) + s[|s| - 1]
  }

  /** Histogram counts as reals. */
  function Counts(observed: seq<nat>): (r: seq<real>)
    ensures |r| == |observed|
  {
    seq(|observed|, i requires 0 <= i < |observed| => observed[i] as real)
  }

  /** Every element multiplied by `factor` (numpy's broadcast product). */
  function Scaled(s: seq<real>, factor: real): (r: seq<real>)
    ensures |r| == |s|
  {
    seq(|s|, i requires 0 <= i < |s| => s[i] * factor)
  }

  /** Consecutive differences `v[i+1] - v[i]`, as in CDF(high) - CDF(low) per histogram bin. */
  function Differences(v: seq<real>): (r: seq<real>)
    requires |v| >= 1
    ensures |r| == |v| - 1
  {
    seq(|v| - 1, i requires 0 <= i < |v| - 1 => v[i + 1] - v[i])
  }

  ghost predicate AllAtLeast(s: seq<real>, c: real)
  {
    forall i :: 0 <= i < |s| ==> c <= s[i]
  }

  /** Extending a prefix by one element adds that element to the sum. */
  lemma SumStep(s: seq<real>, k: nat)
    requires k < |s|
    ensures Sum(s[..k + 1]) == Sum(s[..k]) + s[k]
  {
    assert s[..k + 1][..k] == s[..k];
  }

  lemma SumAppend(s: seq<real>, x: real)
    ensures Sum(s + [x]) == Sum(s) + x
  {
    assert (s + [x])[..|s|] == s;
  }

  /** A sum of |s| terms each at least c is at least |s|·c. */
  lemma {:induction false} SumAtLeast(s: seq<real>, c: real)
    requires AllAtLeast(s, c)
    ensures Sum(s) >= |s| as real * c
  {
    if |s| > 0 {
      SumAtLeast(s[..|s| - 1], c);
    }
  }

  /** The sum of a prefix and of the rest add up to the whole. */
  lemma {:induction false} SumSplit(s: seq<real>, k: nat)
    requires k <= |s|
    ensures Sum(s) == Sum(s[..k]) + Sum(s[k..])
  {
    if k < |s| {
      var n := |s|;
      SumSplit(s[..n - 1], k);
      assert s[..n - 1][..k] == s[..k];
      assert s[..n - 1][k..] == s[k..][..n - 1 - k];
    } else {
      assert s[..k] == s;
      assert s[k..] == [];
    }
  }

  /** A prefix keeps a lower bound of the whole sequence. */
  lemma PrefixAllAtLeast(s: seq<real>, c: real, k: nat)
    requires k <= |s| && AllAtLeast(s, c)
    ensures AllAtLeast(s[..k], c)
  {
    var prefix := s[..k];
    forall i | 0 <= i < k ensures c <= prefix[i] {
      assert prefix[i] == s[i];
    }
  }

  /** A prefix of k elements, each at least c, sums to at least k·c. */
  lemma PrefixSumAtLeast(s: seq<real>, c: real, k: nat)
    requires k <= |s| && AllAtLeast(s, c)
    ensures Sum(s[..k]) >= k as real * c
  {
    PrefixAllAtLeast(s, c, k);
    SumAtLeast(s[..k], c);
  }

  /** Prefix sums of terms at least c grow by at least c per term. */
  lemma PrefixSumsGrow(s: seq<real>, c: real, i: nat, j: nat)
    requires i <= j <= |s|
    requires AllAtLeast(s, c)
    ensures Sum(s[..j]) >= Sum(s[..i]) + (j - i) as real * c
  {
    SumSplit(s[..j], i);
    assert s[..j][..i] == s[..i];
    assert AllAtLeast(s[..j][i..], c);
    SumAtLeast(s[..j][i..], c);
  }

  /** Scaling every term scales the sum: the balance achieved by normalisation. */
  lemma {:induction false} SumScaled(s: seq<real>, factor: real)
    ensures Sum(Scaled(s, factor)) == Sum(s) * factor
  {
    if |s| > 0 {
      var n := |s|;
      SumScaled(s[..n - 1], factor);
      var whole, front := Scaled(s, factor), Scaled(s[..n - 1], factor);
      forall i | 0 <= i < n - 1 ensures whole[i] == front[i] { }
      assert whole[..n - 1] == front;
    }
  }

  /** Consecutive differences telescope to last minus first. */
  lemma {:induction false} SumDifferences(v: seq<real>)
    requires |v| >= 1
    ensures Sum(Differences(v)) == v[|v| - 1] - v[0]
  {
    if |v| > 1 {
      var n := |v|;
      SumDifferences(v[..n - 1]);
      assert Differences(v)[..n - 2] == Differences(v[..n - 1]);
    }
  }

  /** The running totals of s: entry i is the sum of s[0..i]. */
  ghost function RunningTotals(s: seq<real>): (r: seq<real>)
    ensures |r| == |s|
  {
    if |s| == 0 then [] else RunningTotals(s[..|s| - 1]) + [Sum(s)]
  }

  lemma RunningTotalsAppend(s: seq<real>, x: real)
    ensures RunningTotals(s + [x]) == RunningTotals(s) + [Sum(s + [x])]
  {
    assert (s + [x])[..|s|] == s;
  }

  /**
   * Running totals of durations of at least c >= 0 are the prefix sums: a
   * clock that never goes back, and strictly advances when c > 0.
   */
  lemma {:induction false} RunningTotalsAreClocks(s: seq<real>, c: real)
    requires c >= 0.0 && AllAtLeast(s, c)
    ensures forall i :: 0 <= i < |s| ==> RunningTotals(s)[i] == Sum(s[..i + 1])
    ensures forall i, j :: 0 <= i < j < |s| ==> RunningTotals(s)[i] <= RunningTotals(s)[j]
    ensures c > 0.0 ==> forall i, j :: 0 <= i < j < |s| ==> RunningTotals(s)[i] < RunningTotals(s)[j]
  {
    var r := RunningTotals(s);
    forall i | 0 <= i < |s| ensures r[i] == Sum(s[..i + 1]) {
      RunningTotalAt(s, i);
    }
    forall i, j | 0 <= i < j < |s| ensures r[i] <= r[j] && (c > 0.0 ==> r[i] < r[j]) {
      RunningTotalAt(s, i);
      RunningTotalAt(s, j);
      PrefixSumsGrow(s, c, i + 1, j + 1);
      var gap := (j + 1 - (i + 1)) as real;
      assert gap >= 1.0;
      assert c > 0.0 ==> gap * c > 0.0;
    }
  }

  lemma {:induction false} RunningTotalAt(s: seq<real>, i: nat)
    requires i < |s|
    ensures RunningTotals(s)[i] == Sum(s[..i + 1])
  {
    var front := s[..|s| - 1];
    assert RunningTotals(s) == RunningTotals(front) + [Sum(s)];
    if i < |s| - 1 {
      RunningTotalAt(front, i);
      assert front[..i + 1] == s[..i + 1];
    } else {
      assert s[..i + 1] == s;
    }
  }

  /** The sum of the first k elements of s, accumulated left to right. */
  function PrefixSum(s: seq<real>, k: nat): real
    requires k <= |s|
  {
    if k == 0 then 0.0 else PrefixSum(s, k - 1) + s[k - 1]
  }

  lemma {:induction false} PrefixSumIsSum(s: seq<real>, k: nat)
    requires k <= |s|
    ensures PrefixSum(s, k) == Sum(s[..k])
  {
    if k > 0 {
      PrefixSumIsSum(s, k - 1);
      SumStep(s, k - 1);
    }
  }

  /** A running sum over terms of at least c grows by at least c per term. */
  lemma {:induction false} PrefixSumGrows(s: seq<real>, c: real, i: nat, j: nat)
    requires i <= j <= |s| && AllAtLeast(s, c)
    ensures PrefixSum(s, j) >= PrefixSum(s, i) + (j - i) as real * c
  {
    PrefixSumIsSum(s, i);
    PrefixSumIsSum(s, j);
    PrefixSumsGrow(s, c, i, j);
  }

  /** The running sums after 1, 2, ..., k terms. */
  function PrefixTotals(s: seq<real>, k: nat): (r: seq<real>)
    requires k <= |s|
    ensures |r| == k
  {
    if k == 0 then [] else PrefixTotals(s, k - 1) + [PrefixSum(s, k)]
  }

  lemma {:induction false} PrefixTotalAt(s: seq<real>, k: nat, i: nat)
    requires i < k <= |s|
    ensures PrefixTotals(s, k)[i] == PrefixSum(s, i + 1)
  {
    if i < k - 1 {
      PrefixTotalAt(s, k - 1, i);
    }
  }

  /** One more element of a sequence extends its prefix. */
  lemma PrefixExtend<T>(whole: seq<T>, k: nat)
    requires k < |whole|
    ensures whole[..k] + [whole[k]] == whole[..k + 1]
  {
  }

  /** One more element extends the running totals by the next prefix sum. */
  lemma PrefixTotalsStep(s: seq<real>, k: nat)
    requires k < |s|
    ensures PrefixSum(s, k + 1) == PrefixSum(s, k) + s[k]
    ensures PrefixTotals(s, k + 1) == PrefixTotals(s, k) + [PrefixSum(s, k + 1)]
  {
  }

  /**
   * The hand simulation accumulates arrival clocks as `RunningTotals` (a sum
   * of the whole list so far), the patient simulator as `PrefixTotals` (a
   * running sum carried from step to step); both are the same clocks.
   */
  lemma {:induction false} RunningTotalsArePrefixTotals(s: seq<real>)
    ensures RunningTotals(s) == PrefixTotals(s, |s|)
  {
    var r, p := RunningTotals(s), PrefixTotals(s, |s|);
    assert |r| == |p| == |s|;
    forall i | 0 <= i < |s| ensures r[i] == p[i] {
      RunningTotalAt(s, i);
      PrefixTotalAt(s, |s|, i);
      PrefixSumIsSum(s, i + 1);
    }
  }
}
