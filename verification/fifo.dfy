/**
 * The single-server first-in-first-out scheduling recurrence that both
 * pages run after generating arrivals: the first customer starts on
 * arrival, every later one at the later of its arrival and its
 * predecessor's completion.  Also the utilization ratio both pages report.
 */
module Fifo {
  import opened Sums
  import opened Wrappers

  function Max(a: real, b: real): (m: real)
    ensures m >= a && m >= b && (m == a || m == b)
  {
    if a >= b then a else b
  }

  predicate Schedulable(arrivals: seq<real>, services: seq<real>)
  {
    |arrivals| == |services|
  }

  /** When customer i enters service. */
  function Start(arrivals: seq<real>, services: seq<real>, i: nat): real
    requires Schedulable(arrivals, services) && i < |arrivals|
    decreases i, 0
  {
    if i == 0 then arrivals[0] else Max(arrivals[i], Completion(arrivals, services, i - 1))
  }

  /** When customer i leaves the server. */
  function Completion(arrivals: seq<real>, services: seq<real>, i: nat): real
    requires Schedulable(arrivals, services) && i < |arrivals|
    decreases i, 1
  {
    Start(arrivals, services, i) + services[i]
  }

  /** The server never starts a customer before it arrives nor while busy with the previous one. */
  lemma StartBounds(arrivals: seq<real>, services: seq<real>, i: nat)
    requires Schedulable(arrivals, services) && i < |arrivals|
    ensures Start(arrivals, services, i) >= arrivals[i]
    ensures i > 0 ==> Start(arrivals, services, i) >= Completion(arrivals, services, i - 1)
    ensures Completion(arrivals, services, i) - arrivals[i]
            == (Start(arrivals, services, i) - arrivals[i]) + services[i]
  {
  }

  /** With non-negative service times, completions never go backwards. */
  lemma {:induction false} CompletionMonotone(arrivals: seq<real>, services: seq<real>, i: nat, j: nat)
    requires Schedulable(arrivals, services) && i <= j < |arrivals|
    requires AllAtLeast(services, 0.0)
    ensures Completion(arrivals, services, i) <= Completion(arrivals, services, j)
  {
    if i < j {
      CompletionMonotone(arrivals, services, i, j - 1);
      assert services[j] >= 0.0;
    }
  }

  /** With service times at least c > 0, completions strictly increase (by at least c per customer). */
  lemma {:induction false} CompletionsIncrease(arrivals: seq<real>, services: seq<real>, c: real, i: nat, j: nat)
    requires Schedulable(arrivals, services) && i < j < |arrivals|
    requires c > 0.0 && AllAtLeast(services, c)
    ensures Completion(arrivals, services, i) < Completion(arrivals, services, j)
  {
    assert services[j] >= c;
    if i < j - 1 {
      CompletionsIncrease(arrivals, services, c, i, j - 1);
    }
  }

  /**
   * Service intervals [Start, Completion) of two distinct customers do not
   * overlap: an earlier customer is done before a later one starts.
   */
  lemma ServiceIntervalsDisjoint(arrivals: seq<real>, services: seq<real>, i: nat, j: nat)
    requires Schedulable(arrivals, services) && i < j < |arrivals|
    requires AllAtLeast(services, 0.0)
    ensures Completion(arrivals, services, i) <= Start(arrivals, services, j)
    ensures Start(arrivals, services, i) <= Completion(arrivals, services, i)
  {
    CompletionMonotone(arrivals, services, i, j - 1);
    assert services[i] >= 0.0;
  }

  /**
   * Lower half of the closed form: customer i cannot complete before any
   * earlier customer j has arrived and the work of customers j..i is done.
   */
  lemma {:induction false} CompletionCoversWork(arrivals: seq<real>, services: seq<real>, j: nat, i: nat)
    requires Schedulable(arrivals, services) && j <= i < |arrivals|
    ensures Completion(arrivals, services, i) >= arrivals[j] + Sum(services[j..i + 1])
  {
    SumStep(services[j..i + 1], i - j);
    assert services[j..i + 1][..i - j] == services[j..i];
    if j < i {
      CompletionCoversWork(arrivals, services, j, i - 1);
    } else {
      assert services[j..i] == [];
    }
  }

  /**
   * Upper half of the closed form: the customer j that opened the current
   * busy period (it found the server idle) attains the bound, and from j to
   * i the server never idles.  Together with CompletionCoversWork:
   * Completion(i) == max over j <= i of arrivals[j] + services[j] + ... + services[i].
   */
  function BusyPeriodStart(arrivals: seq<real>, services: seq<real>, i: nat): (j: nat)
    requires Schedulable(arrivals, services) && i < |arrivals|
    ensures j <= i
    ensures Completion(arrivals, services, i) == arrivals[j] + Sum(services[j..i + 1])
    ensures j == 0 || arrivals[j] >= Completion(arrivals, services, j - 1)
    ensures forall k :: j < k <= i ==> Start(arrivals, services, k) == Completion(arrivals, services, k - 1)
  {
    SumStep(services[..i + 1], i);
    if i == 0 then
      assert services[0..1] == [services[0]];
      0
    else if arrivals[i] >= Completion(arrivals, services, i - 1) then
      assert services[i..i + 1] == [services[i]];
      i
    else
      var j := BusyPeriodStart(arrivals, services, i - 1);
      SumStep(services[j..i + 1], i - j);
      assert services[j..i + 1][..i - j] == services[j..i];
      j
  }

  datatype UtilizationError = EmptyRun | ZeroSpan

  /**
   * Total service time over the span from the first arrival to the last
   * completion.  No customers: the page indexes an empty list; a zero
   * span: the ratio is undefined.
   */
  function Utilization(arrivals: seq<real>, services: seq<real>, completions: seq<real>): (r: Result<real, UtilizationError>)
    requires |arrivals| == |services| == |completions|
    ensures |arrivals| == 0 <==> r == Failure(EmptyRun)
    ensures r == Failure(ZeroSpan) <==> |arrivals| > 0 && completions[|arrivals| - 1] == arrivals[0]
    ensures r.Success? ==> r.value * (completions[|arrivals| - 1] - arrivals[0]) == Sum(services)
  {
    if |arrivals| == 0 then Failure(EmptyRun)
    else
      var span := completions[|completions| - 1] - arrivals[0];
      if span == 0.0 then Failure(ZeroSpan) else Success(Sum(services) / span)
  }

  /** Work done within a non-zero span that covers it is a fraction of that span. */
  lemma RatioWithinUnit(work: real, span: real)
    requires 0.0 <= work <= span && span != 0.0
    ensures 0.0 <= work / span <= 1.0
    ensures work > 0.0 ==> work / span > 0.0
  {
    var u := work / span;
    assert u * span == work;
  }

  predicate IsSchedule(arrivals: seq<real>, services: seq<real>, completions: seq<real>)
    requires Schedulable(arrivals, services)
  {
    |completions| == |arrivals| &&
    forall i :: 0 <= i < |completions| ==> completions[i] == Completion(arrivals, services, i)
  }

  /**
   * For a FIFO schedule with some positive work, the server is busy for a
   * fraction of the span in (0, 1].
   */
  lemma UtilizationWithinUnit(arrivals: seq<real>, services: seq<real>, completions: seq<real>)
    requires Schedulable(arrivals, services) && IsSchedule(arrivals, services, completions)
    requires |arrivals| > 0 && AllAtLeast(services, 0.0) && Sum(services) > 0.0
    ensures Utilization(arrivals, services, completions).Success?
    ensures 0.0 < Utilization(arrivals, services, completions).value <= 1.0
  {
    var n := |arrivals|;
    CompletionCoversWork(arrivals, services, 0, n - 1);
    assert services[0..n] == services;
    RatioWithinUnit(Sum(services), completions[n - 1] - arrivals[0]);
  }

  /**
   * With non-negative service times, a defined utilization is a fraction:
   * the span from the first arrival to the last completion covers all the
   * work.
   */
  lemma UtilizationAtMostOne(arrivals: seq<real>, services: seq<real>, completions: seq<real>)
    requires Schedulable(arrivals, services) && IsSchedule(arrivals, services, completions)
    requires AllAtLeast(services, 0.0) && Utilization(arrivals, services, completions).Success?
    ensures 0.0 <= Utilization(arrivals, services, completions).value <= 1.0
  {
    var n := |arrivals|;
    CompletionCoversWork(arrivals, services, 0, n - 1);
    assert services[0..n] == services;
    SumAtLeast(services, 0.0);
    RatioWithinUnit(Sum(services), completions[n - 1] - arrivals[0]);
  }

  /**
   * When every service takes at least c > 0, customers finish in arrival
   * order, each strictly after the previous one, and a non-empty run has a
   * utilization in (0, 1].
   */
  lemma BusyRun(arrivals: seq<real>, services: seq<real>, completions: seq<real>, c: real)
    requires Schedulable(arrivals, services) && IsSchedule(arrivals, services, completions)
    requires c > 0.0 && AllAtLeast(services, c)
    ensures forall i, j :: 0 <= i < j < |completions| ==> completions[i] < completions[j]
    ensures |arrivals| > 0 ==>
      Utilization(arrivals, services, completions).Success? &&
      0.0 < Utilization(arrivals, services, completions).value <= 1.0
  {
    forall i, j | 0 <= i < j < |completions| ensures completions[i] < completions[j] {
      CompletionsIncrease(arrivals, services, c, i, j);
    }
    if |arrivals| > 0 {
      var n := |services|;
      SumSplit(services, n - 1);
      assert services[n - 1..] == [services[n - 1]];
      assert Sum([services[n - 1]]) == services[n - 1];
      SumAtLeast(services[..n - 1], 0.0) by {
        PrefixAllAtLeast(services, 0.0, n - 1) by {
          assert AllAtLeast(services, 0.0);
        }
      }
      assert AllAtLeast(services, 0.0);
      UtilizationWithinUnit(arrivals, services, completions);
    }
  }
}
