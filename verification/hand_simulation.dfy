/**
 * The "Hand Simulation" page: customers are generated until a running
 * cumulative probability reaches 1, then served first-in-first-out by one
 * server; the page reports the per-customer timings, the utilization, and a
 * Chi-square fit of the inter-arrival and service samples.
 *
 * Every inter-arrival gap and service time is clamped to at least 0.01.
 * The stopping increment 1 - exp(-gap / mean inter-arrival time) is the
 * exponential CDF of the gap whatever arrival kind is selected; it is the
 * parameter `stopIncrement`, a function of the gap alone.
 */
module HandSimulation {
  import opened Sums
  import opened Wrappers
  import opened Variates
  import opened Fifo
  import opened GoodnessOfFit

  /** Standard deviation of Normal durations, as a fraction of the mean. */
  const NormalSpread: real := 0.2

  /** Floor applied to every drawn duration. */
  const MinDuration: real := 0.01

  /** One numpy sample of the given kind; the unrecognised kind yields zero. */
  function GetRandom(spec: DistSpec, u: real): (x: real)
    requires ValidSpec(spec) && ValidVariate(spec.kind, u)
    ensures spec.kind == Unrecognised ==> x == 0.0
    ensures spec.kind != Normal ==> x >= 0.0
    ensures spec.kind == Uniform ==> UniformLow(spec.mean) <= x < UniformHigh(spec.mean)
  {
    match spec.kind
    case Exponential =>
      ScaledNonNegative(spec.mean, u);
      spec.mean * u
    case Poisson => u
    case Uniform => UniformSample(spec.mean, u)
    case Normal => spec.mean + spec.mean * NormalSpread * u
    case Unrecognised => 0.0
  }

  /** max(x, 0.01): the smallest duration at least x and at least 0.01. */
  function ClampDuration(x: real): (r: real)
    ensures r >= MinDuration && r >= x
    ensures r == x || r == MinDuration
  {
    Max(x, MinDuration)
  }

  /** The clamped inter-arrival gap drawn in each iteration. */
  function Gaps(arrival: DistSpec, draws: seq<Draw>): (g: seq<real>)
    requires ValidSpec(arrival) && ValidArrivalVariates(arrival, draws)
    ensures |g| == |draws| && AllAtLeast(g, MinDuration)
  {
    seq(|draws|, i requires 0 <= i < |draws| => ClampDuration(GetRandom(arrival, draws[i].arrivalVariate)))
  }

  /** The clamped service time drawn in each iteration. */
  function ServiceTimes(service: DistSpec, draws: seq<Draw>): (s: seq<real>)
    requires ValidSpec(service) && ValidServiceVariates(service, draws)
    ensures |s| == |draws| && AllAtLeast(s, MinDuration)
  {
    seq(|draws|, i requires 0 <= i < |draws| => ClampDuration(GetRandom(service, draws[i].serviceVariate)))
  }

  /** What each gap adds to the cumulative probability. */
  function StopIncrements(gaps: seq<real>, stopIncrement: real -> real): (m: seq<real>)
    ensures |m| == |gaps|
  {
    seq(|gaps|, i requires 0 <= i < |gaps| => stopIncrement(gaps[i]))
  }

  /**
   * The increment is positive at the smallest gap and does not shrink for
   * larger gaps, as 1 - exp(-gap / mean) does for a positive mean.
   */
  ghost predicate IncrementBoundedBelow(stopIncrement: real -> real)
  {
    0.0 < stopIncrement(MinDuration) &&
    forall x :: MinDuration <= x ==> stopIncrement(MinDuration) <= stopIncrement(x)
  }

  datatype HandRun = HandRun(
    interArrivals: seq<real>,
    services: seq<real>,
    arrivals: seq<real>,
    customers: nat,
    drawsExhausted: bool)

  /**
   * The generation loop.  It draws a gap and a service time per customer,
   * appends the arrival clock (the sum of the gaps so far) and adds the
   * stopping increment, until the cumulative probability reaches 1 or the
   * draws run out.
   */
  method SimulateCustomers(arrival: DistSpec, service: DistSpec, draws: seq<Draw>, stopIncrement: real -> real)
    returns (run: HandRun)
    requires ValidDraws(arrival, service, draws)
    ensures run.customers == |run.interArrivals| == |run.services| == |run.arrivals| <= |draws|
    ensures run.interArrivals == Gaps(arrival, draws)[..run.customers]
    ensures run.services == ServiceTimes(service, draws)[..run.customers]
    ensures run.arrivals == RunningTotals(run.interArrivals)
    ensures StoppedAt(StopIncrements(Gaps(arrival, draws), stopIncrement), run.customers, run.drawsExhausted)
  {
    ghost var gaps := Gaps(arrival, draws);
    ghost var serviceTimes := ServiceTimes(service, draws);
    ghost var increments := StopIncrements(gaps, stopIncrement);
    var arrivals: seq<real> := [];
    var services: seq<real> := [];
    var interArrivals: seq<real> := [];
    var cumulativeProb := 0.0;
    var customer := 0;
    var exhausted := false;
    while cumulativeProb < 1.0
      invariant customer <= |draws|
      invariant interArrivals == gaps[..customer]
      invariant services == serviceTimes[..customer]
      invariant arrivals == RunningTotals(interArrivals)
      invariant cumulativeProb == Sum(increments[..customer])
      invariant BelowOneBefore(increments, customer)
      invariant !exhausted
      decreases |draws| - customer
    {
      if customer == |draws| {
        exhausted := true;
        break;
      }
      customer := customer + 1;
      var interArrival := ClampDuration(GetRandom(arrival, draws[customer - 1].arrivalVariate));
      var serviceTime := ClampDuration(GetRandom(service, draws[customer - 1].serviceVariate));
      assert interArrival == gaps[customer - 1] && serviceTime == serviceTimes[customer - 1];
      GrowPrefix(gaps, interArrivals, customer - 1);
      GrowPrefix(serviceTimes, services, customer - 1);
      RunningTotalsAppend(interArrivals, interArrival);
      SumStep(increments, customer - 1);
      interArrivals := interArrivals + [interArrival];
      services := services + [serviceTime];
      arrivals := arrivals + [Sum(interArrivals)];
      cumulativeProb := cumulativeProb + stopIncrement(interArrival);
    }
    run := HandRun(interArrivals, services, arrivals, customer, exhausted);
  }

  /** Appending the next element of `whole` to its prefix of length k. */
  lemma GrowPrefix(whole: seq<real>, prefix: seq<real>, k: nat)
    requires k < |whole| && prefix == whole[..k]
    ensures prefix + [whole[k]] == whole[..k + 1]
    ensures Sum(prefix + [whole[k]]) == Sum(prefix) + whole[k]
  {
    SumAppend(prefix, whole[k]);
  }

  lemma IncrementsBoundedBelow(gaps: seq<real>, stopIncrement: real -> real)
    requires AllAtLeast(gaps, MinDuration) && IncrementBoundedBelow(stopIncrement)
    ensures AllAtLeast(StopIncrements(gaps, stopIncrement), stopIncrement(MinDuration))
  {
    var increments := StopIncrements(gaps, stopIncrement);
    forall i | 0 <= i < |gaps| ensures stopIncrement(MinDuration) <= increments[i] {
      assert MinDuration <= gaps[i];
    }
  }

  /** The running sums of the first 0, 1, ..., count - 1 increments are all below 1. */
  ghost predicate BelowOneBefore(increments: seq<real>, count: nat)
    requires count <= |increments|
  {
    count == 0 || (BelowOneBefore(increments, count - 1) && Sum(increments[..count - 1]) < 1.0)
  }

  lemma {:induction false} BelowOneBeforeAll(increments: seq<real>, count: nat)
    requires count <= |increments| && BelowOneBefore(increments, count)
    ensures forall j :: 0 <= j < count ==> Sum(increments[..j]) < 1.0
  {
    if count > 0 {
      BelowOneBeforeAll(increments, count - 1);
    }
  }

  /**
   * The stopping rule of the generation loop: `count` customers were
   * admitted, each while the cumulative probability was still below 1, and
   * the loop stopped because the cumulative probability reached 1 or,
   * before it did, because the draws ran out.
   */
  ghost predicate StoppedAt(increments: seq<real>, count: nat, exhausted: bool)
  {
    && count <= |increments|
    && BelowOneBefore(increments, count)
    && if exhausted then count == |increments| && Sum(increments[..count]) < 1.0
       else Sum(increments[..count]) >= 1.0
  }

  /** Every customer was admitted while the cumulative probability was below 1. */
  lemma StoppedBelowOne(increments: seq<real>, count: nat, exhausted: bool)
    requires StoppedAt(increments, count, exhausted)
    ensures forall j :: 0 <= j < count ==> Sum(increments[..j]) < 1.0
  {
    BelowOneBeforeAll(increments, count);
  }

  /**
   * The stopping point is determined by the increments: it is the first
   * count whose running sum reaches 1, or all of them when none does.
   */
  lemma StoppedAtUnique(increments: seq<real>, count: nat, exhausted: bool, count': nat, exhausted': bool)
    requires StoppedAt(increments, count, exhausted) && StoppedAt(increments, count', exhausted')
    ensures count == count' && exhausted == exhausted'
  {
    StoppedBelowOne(increments, count, exhausted);
    StoppedBelowOne(increments, count', exhausted');
  }

  /** With at least one draw the loop admits at least one customer. */
  lemma StoppedAfterFirst(increments: seq<real>, count: nat, exhausted: bool)
    requires StoppedAt(increments, count, exhausted) && |increments| > 0
    ensures count >= 1
  {
    assert increments[..0] == [];
  }

  /**
   * Increments of at least delta > 0 add up to at least j·delta before
   * customer j, so the loop admits at most 1 + 1/delta customers, and the
   * draws run out only when there are fewer than 1/delta of them.
   */
  lemma StopBound(increments: seq<real>, delta: real, count: nat, exhausted: bool)
    requires StoppedAt(increments, count, exhausted)
    requires delta > 0.0 && AllAtLeast(increments, delta)
    ensures forall j :: 0 <= j < count ==> j as real * delta <= Sum(increments[..j]) < 1.0
    ensures exhausted ==> |increments| as real * delta < 1.0
  {
    StoppedBelowOne(increments, count, exhausted);
    forall j | 0 <= j < count ensures j as real * delta <= Sum(increments[..j]) {
      PrefixSumAtLeast(increments, delta, j);
    }
    if exhausted {
      assert increments[..count] == increments;
      SumAtLeast(increments, delta);
    }
  }

  /**
   * The scheduling pass over preallocated arrays, filled by index: start,
   * completion, waiting, turnaround and response time of every customer.
   */
  method ScheduleCustomers(arrivals: seq<real>, services: seq<real>)
    returns (start: array<real>, completion: array<real>, waiting: array<real>,
             turnaround: array<real>, response: array<real>)
    requires Schedulable(arrivals, services)
    ensures fresh(start) && fresh(completion) && fresh(waiting) && fresh(turnaround) && fresh(response)
    ensures start.Length == completion.Length == waiting.Length == turnaround.Length == response.Length == |arrivals|
    ensures forall i :: 0 <= i < |arrivals| ==>
      && start[i] == Start(arrivals, services, i)
      && completion[i] == Completion(arrivals, services, i)
      && waiting[i] == start[i] - arrivals[i]
      && turnaround[i] == completion[i] - arrivals[i]
      && response[i] == waiting[i]
  {
    var n := |arrivals|;
    start := new real[n](_ => 0.0);
    completion := new real[n](_ => 0.0);
    waiting := new real[n](_ => 0.0);
    turnaround := new real[n](_ => 0.0);
    response := new real[n](_ => 0.0);
    for i := 0 to n
      invariant forall k :: 0 <= k < i ==>
        && start[k] == Start(arrivals, services, k)
        && completion[k] == Completion(arrivals, services, k)
        && waiting[k] == start[k] - arrivals[k]
        && turnaround[k] == completion[k] - arrivals[k]
        && response[k] == waiting[k]
    {
      var begin := if i == 0 then arrivals[i] else Max(arrivals[i], completion[i - 1]);
      assert begin == Start(arrivals, services, i);
      RecordCustomer(start, completion, waiting, turnaround, response, i, begin, arrivals[i], services[i]);
    }
  }

  /** Customer i's row of the schedule, from its start, arrival and service times. */
  method RecordCustomer(start: array<real>, completion: array<real>, waiting: array<real>,
                        turnaround: array<real>, response: array<real>,
                        i: nat, begin: real, arrival: real, service: real)
    requires i < start.Length == completion.Length == waiting.Length == turnaround.Length == response.Length
    requires start != completion && start != waiting && start != turnaround && start != response
    requires completion != waiting && completion != turnaround && completion != response
    requires waiting != turnaround && waiting != response && turnaround != response
    modifies start, completion, waiting, turnaround, response
    ensures start[i] == begin && completion[i] == begin + service
    ensures waiting[i] == begin - arrival && turnaround[i] == completion[i] - arrival && response[i] == waiting[i]
    ensures forall k :: 0 <= k < start.Length && k != i ==>
      && start[k] == old(start[k]) && completion[k] == old(completion[k]) && waiting[k] == old(waiting[k])
      && turnaround[k] == old(turnaround[k]) && response[k] == old(response[k])
  {
    start[i] := begin;
    completion[i] := start[i] + service;
    waiting[i] := start[i] - arrival;
    turnaround[i] := completion[i] - arrival;
    response[i] := waiting[i];
  }

  /**
   * What pressing "Run Simulation" computes before the fit tests: the
   * customers, their schedule and the utilization.  Whenever at least one
   * draw is available, the utilization is defined and lies in (0, 1].
   */
  method RunSimulation(arrival: DistSpec, service: DistSpec, draws: seq<Draw>, stopIncrement: real -> real)
    returns (run: HandRun, completion: seq<real>, utilization: Result<real, UtilizationError>)
    requires ValidDraws(arrival, service, draws)
    ensures |run.interArrivals| == |run.arrivals| == |run.services| == |completion| == run.customers
    ensures StoppedAt(StopIncrements(Gaps(arrival, draws), stopIncrement), run.customers, run.drawsExhausted)
    // every gap and service time is at least 0.01; arrival k is the sum of the first k + 1 gaps, so arrivals strictly increase
    ensures AllAtLeast(run.interArrivals, MinDuration) && AllAtLeast(run.services, MinDuration)
    ensures forall i :: 0 <= i < run.customers ==> run.arrivals[i] == Sum(run.interArrivals[..i + 1])
    ensures forall i, j :: 0 <= i < j < run.customers ==> run.arrivals[i] < run.arrivals[j]
    ensures forall i :: 0 <= i < run.customers ==> completion[i] == Completion(run.arrivals, run.services, i)
    ensures forall i, j :: 0 <= i < j < run.customers ==> completion[i] < completion[j]
    ensures utilization == Utilization(run.arrivals, run.services, completion)
    ensures |draws| > 0 ==> utilization.Success? && 0.0 < utilization.value <= 1.0
    ensures |draws| == 0 ==> utilization == Failure(EmptyRun)
  {
    run := SimulateCustomers(arrival, service, draws, stopIncrement);
    if |draws| > 0 {
      StoppedAfterFirst(StopIncrements(Gaps(arrival, draws), stopIncrement), run.customers, run.drawsExhausted);
    }
    var start, completionArray, waiting, turnaround, response := ScheduleCustomers(run.arrivals, run.services);
    completion := completionArray[..];
    utilization := Utilization(run.arrivals, run.services, completion);
    PrefixAllAtLeast(Gaps(arrival, draws), MinDuration, run.customers);
    RunningTotalsAreClocks(run.interArrivals, MinDuration);
    PrefixAllAtLeast(ServiceTimes(service, draws), MinDuration, run.customers);
    BusyRun(run.arrivals, run.services, completion, MinDuration);
  }

  /**
   * The expected frequencies before normalisation, from the CDF of the
   * assumed law at each histogram edge: sample size times the bin's
   * probability mass.  For an unrecognised kind the page builds a list of
   * integer ones instead.
   */
  datatype ExpectedFrequencies = FloatCounts(values: seq<real>) | IntegerOnes(bins: nat)

  function Expected(kind: Dist, sampleSize: nat, edgeCdf: seq<real>): (e: ExpectedFrequencies)
    requires |edgeCdf| >= 1
    ensures e.IntegerOnes? <==> kind == Unrecognised
    ensures e.IntegerOnes? ==> e.bins == |edgeCdf| - 1
    ensures e.FloatCounts? ==> |e.values| == |edgeCdf| - 1
    // the bins telescope: the total is the sample size times the mass between the outer edges
    ensures e.FloatCounts? ==> Sum(e.values) == sampleSize as real * (edgeCdf[|edgeCdf| - 1] - edgeCdf[0])
  {
    if kind == Unrecognised then IntegerOnes(|edgeCdf| - 1)
    else
      var mass := Differences(edgeCdf);
      SumDifferences(edgeCdf);
      SumScaled(mass, sampleSize as real);
      FloatCounts(Scaled(mass, sampleSize as real))
  }

  /** `expected *= factor` on the numpy array, in place. */
  method RescaleInPlace(expected: array<real>, factor: real)
    modifies expected
    ensures expected[..] == Scaled(old(expected[..]), factor)
  {
    forall i | 0 <= i < expected.Length {
      expected[i] := expected[i] * factor;
    }
    ghost var want := Scaled(old(expected[..]), factor);
    forall i | 0 <= i < expected.Length ensures expected[..][i] == want[i] { }
  }

  datatype FitReport = FitReport(expected: seq<real>, pValue: real, degreesOfFreedom: int, verdict: Verdict)

  /**
   * Normalisation, degrees of freedom and verdict of the page's Chi-square
   * test.  `pValueOf` is scipy's chisquare p-value for the observed counts
   * against the rescaled expected counts.
   */
  method ChiSquareTest(observed: seq<nat>, expected: ExpectedFrequencies, pValueOf: (seq<nat>, seq<real>) -> real)
    returns (r: Result<FitReport, FitError>)
    requires expected.FloatCounts? ==> |expected.values| == |observed|
    ensures expected.IntegerOnes? && expected.bins > 0 ==> r == Failure(IntegerArrayCast)
    ensures expected.IntegerOnes? && expected.bins == 0 ==> r == Failure(ZeroExpectedTotal)
    ensures expected.FloatCounts? ==> (r == Failure(ZeroExpectedTotal) <==> Sum(expected.values) == 0.0)
    ensures expected.FloatCounts? && r.Success? ==> Normalized(observed, expected.values) == Success(r.value.expected)
    ensures r.Success? ==> |r.value.expected| == |observed| && Sum(r.value.expected) == Sum(Counts(observed))
    ensures r.Success? ==> r.value.degreesOfFreedom == |observed| - 2
    ensures r.Success? ==> r.value.pValue == pValueOf(observed, r.value.expected)
    ensures r.Success? ==> (r.value.verdict == Accepted <==> r.value.pValue > SignificanceLevel)
  {
    match expected
    case IntegerOnes(bins) =>
      if bins == 0 {
        r := Failure(ZeroExpectedTotal);
      } else {
        r := Failure(IntegerArrayCast);
      }
    case FloatCounts(values) =>
      var factor := RescaleFactor(observed, values);
      if factor.Failure? {
        r := Failure(factor.error);
      } else {
        var scaled := new real[|values|](i requires 0 <= i < |values| => values[i]);
        assert scaled[..] == values;
        RescaleInPlace(scaled, factor.value);
        var p := pValueOf(observed, scaled[..]);
        r := Success(FitReport(scaled[..], p, |observed| - 1 - 1, Decide(p)));
      }
  }
}
