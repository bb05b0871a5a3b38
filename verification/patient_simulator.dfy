/**
 * The "Patient Queue Simulator" page: patients arrive until the clock
 * passes the simulation time, optionally stopping earlier once the running
 * cumulative probabilities of both the arrival and the service draws would
 * exceed 1; they are then served first-in-first-out by one server, and the
 * page reports each patient's timings and the utilization.  A Chi-square fit
 * of the arrival and service samples follows only when the playback box is
 * ticked in the same rerun as the button press.
 *
 * The scipy CDFs of the Exponential, Poisson and Normal laws are the
 * parameter `libraryCdf`; the Uniform CDF is piecewise linear and defined
 * here.  Rounding to 2 or 4 decimals is treated as the identity.
 */
module PatientSimulator {
  import opened Sums
  import opened Wrappers
  import opened Variates
  import opened Fifo
  import opened GoodnessOfFit

  /** Standard deviation of Normal durations, as a fraction of the mean. */
  const NormalSpread: real := 0.3

  /**
   * One duration of the given kind.  Normal draws are cut off at 0 and the
   * unrecognised kind yields the mean itself, so no duration is negative.
   */
  function GenerateTime(spec: DistSpec, u: real): (t: real)
    requires ValidSpec(spec) && ValidVariate(spec.kind, u)
    ensures t >= 0.0
    ensures spec.kind == Uniform ==> UniformLow(spec.mean) <= t < UniformHigh(spec.mean)
    ensures spec.kind == Unrecognised ==> t == spec.mean
  {
    match spec.kind
    case Exponential =>
      ScaledNonNegative(spec.mean, u);
      spec.mean * u
    case Poisson => u
    case Uniform => UniformSample(spec.mean, u)
    case Normal => Max(0.0, spec.mean + spec.mean * NormalSpread * u)
    case Unrecognised => spec.mean
  }

  /**
   * scipy's uniform.cdf(x, loc, scale): no mass below loc, all of it at
   * loc + scale, and linear in between.
   */
  function UniformCdf(x: real, loc: real, scale: real): (p: real)
    requires scale > 0.0
    ensures 0.0 <= p <= 1.0
    ensures x <= loc ==> p == 0.0
    ensures x >= loc + scale ==> p == 1.0
  {
    if x < loc then 0.0
    else if x >= loc + scale then 1.0
    else
      assert 0.0 <= x - loc < scale;
      (x - loc) / scale
  }

  /** Inside the support the CDF is the fraction of the interval below x. */
  lemma UniformCdfLinear(x: real, loc: real, scale: real)
    requires scale > 0.0 && loc <= x <= loc + scale
    ensures UniformCdf(x, loc, scale) * scale == x - loc
  {
  }

  lemma UniformCdfMonotone(x: real, y: real, loc: real, scale: real)
    requires scale > 0.0 && x <= y
    ensures UniformCdf(x, loc, scale) <= UniformCdf(y, loc, scale)
  {
    if loc <= x && y < loc + scale {
      assert (y - loc) / scale - (x - loc) / scale == (y - x) / scale;
    }
  }

  /**
   * The Uniform generator and the Uniform CDF describe the same law: the
   * CDF of a generated duration is the unit variate it came from.
   */
  lemma UniformCdfInvertsSample(mean: real, u: real)
    requires mean > 0.0 && 0.0 <= u < 1.0
    ensures UniformCdf(UniformSample(mean, u), UniformLow(mean), mean) == u
  {
    var x := UniformSample(mean, u);
    assert x - UniformLow(mean) == mean * u;
  }

  /** The scipy laws the page evaluates, with the parameters it passes. */
  datatype Law = ExponentialLaw(scale: real) | PoissonLaw(mu: real) | NormalLaw(loc: real, scale: real)

  /** A CDF library returns probabilities that never decrease in x. */
  ghost predicate IsCdfLibrary(libraryCdf: (Law, real) -> real)
  {
    && (forall law, x :: 0.0 <= libraryCdf(law, x) <= 1.0)
    && (forall law, x, y :: x <= y ==> libraryCdf(law, x) <= libraryCdf(law, y))
  }

  /** The CDF of the configured law at x; an unrecognised kind has none and yields 0. */
  function GetCdf(x: real, spec: DistSpec, libraryCdf: (Law, real) -> real): (p: real)
    requires ValidSpec(spec)
    ensures spec.kind == Uniform ==> p == UniformCdf(x, UniformLow(spec.mean), spec.mean)
    ensures spec.kind == Unrecognised ==> p == 0.0
    ensures IsCdfLibrary(libraryCdf) ==> 0.0 <= p <= 1.0
  {
    match spec.kind
    case Exponential => libraryCdf(ExponentialLaw(spec.mean), x)
    case Poisson => libraryCdf(PoissonLaw(spec.mean), x)
    case Uniform => UniformCdf(x, UniformLow(spec.mean), spec.mean)
    case Normal => libraryCdf(NormalLaw(spec.mean, spec.mean * NormalSpread), x)
    case Unrecognised => 0.0
  }

  lemma GetCdfMonotone(x: real, y: real, spec: DistSpec, libraryCdf: (Law, real) -> real)
    requires ValidSpec(spec) && IsCdfLibrary(libraryCdf) && x <= y
    ensures GetCdf(x, spec, libraryCdf) <= GetCdf(y, spec, libraryCdf)
  {
    if spec.kind == Uniform {
      UniformCdfMonotone(x, y, UniformLow(spec.mean), spec.mean);
    }
  }

  // ---------------------------------------------------------------------
  // The arrival loop
  // ---------------------------------------------------------------------

  /** The inter-arrival time drawn in each iteration. */
  function ArrivalGaps(arrival: DistSpec, draws: seq<Draw>): (g: seq<real>)
    requires ValidSpec(arrival) && ValidArrivalVariates(arrival, draws)
    ensures |g| == |draws| && AllAtLeast(g, 0.0)
  {
    seq(|draws|, i requires 0 <= i < |draws| => GenerateTime(arrival, draws[i].arrivalVariate))
  }

  /** The service time drawn in each iteration. */
  function ServiceDraws(service: DistSpec, draws: seq<Draw>): (s: seq<real>)
    requires ValidSpec(service) && ValidServiceVariates(service, draws)
    ensures |s| == |draws| && AllAtLeast(s, 0.0)
  {
    seq(|draws|, i requires 0 <= i < |draws| => GenerateTime(service, draws[i].serviceVariate))
  }

  /** The CDF value of each drawn duration under its own law. */
  function Probabilities(spec: DistSpec, times: seq<real>, libraryCdf: (Law, real) -> real): (p: seq<real>)
    requires ValidSpec(spec)
    ensures |p| == |times|
    ensures IsCdfLibrary(libraryCdf) ==> AllAtLeast(p, 0.0)
  {
    seq(|times|, i requires 0 <= i < |times| => GetCdf(times[i], spec, libraryCdf))
  }

  /** The C.P. check fires in iteration j when both totals would pass 1. */
  ghost predicate CpBreak(arrivalProbs: seq<real>, serviceProbs: seq<real>, j: nat)
    requires j < |arrivalProbs| && j < |serviceProbs|
  {
    PrefixSum(arrivalProbs, j + 1) > 1.0 && PrefixSum(serviceProbs, j + 1) > 1.0
  }

  /**
   * Iteration j ran to the end: it started with the clock below the horizon,
   * passed the C.P. check when it was enabled, and left the clock at or
   * below the horizon.
   */
  ghost predicate KeptDraw(gaps: seq<real>, arrivalProbs: seq<real>, serviceProbs: seq<real>,
                           horizon: real, enableCp: bool, j: nat)
    requires j < |gaps| == |arrivalProbs| == |serviceProbs|
  {
    && PrefixSum(gaps, j) < horizon
    && !(enableCp && CpBreak(arrivalProbs, serviceProbs, j))
    && PrefixSum(gaps, j + 1) <= horizon
  }

  /** The first `count` iterations all ran to the end. */
  ghost predicate Continued(gaps: seq<real>, arrivalProbs: seq<real>, serviceProbs: seq<real>,
                            horizon: real, enableCp: bool, count: nat)
    requires count <= |gaps| == |arrivalProbs| == |serviceProbs|
  {
    count == 0 ||
    (&& Continued(gaps, arrivalProbs, serviceProbs, horizon, enableCp, count - 1)
     && KeptDraw(gaps, arrivalProbs, serviceProbs, horizon, enableCp, count - 1))
  }

  datatype StopReason =
    | HorizonReached              // the loop condition: the clock is at or past the horizon
    | CumulativeProbabilityLimit  // the C.P. break before anything is recorded
    | HorizonOvershot             // the draw pushed the clock past the horizon; it is discarded
    | DrawsExhausted              // no draw left (a property of the model's finite input)

  /**
   * Why the loop ended after `count` patients were recorded.  Except on the
   * loop condition, iteration `count` started with the clock below the
   * horizon and ended it in one of the three ways.
   */
  ghost predicate StoppedAt(gaps: seq<real>, arrivalProbs: seq<real>, serviceProbs: seq<real>,
                            horizon: real, enableCp: bool, count: nat, stop: StopReason)
    requires |gaps| == |arrivalProbs| == |serviceProbs|
  {
    && count <= |gaps|
    && Continued(gaps, arrivalProbs, serviceProbs, horizon, enableCp, count)
    && match stop
       case HorizonReached => PrefixSum(gaps, count) >= horizon
       case CumulativeProbabilityLimit =>
         PrefixSum(gaps, count) < horizon && count < |gaps| && enableCp && CpBreak(arrivalProbs, serviceProbs, count)
       case HorizonOvershot =>
         && PrefixSum(gaps, count) < horizon && count < |gaps|
         && !(enableCp && CpBreak(arrivalProbs, serviceProbs, count))
         && PrefixSum(gaps, count + 1) > horizon
       case DrawsExhausted => PrefixSum(gaps, count) < horizon && count == |gaps|
  }

  /** The first k entries of a C.P. column: running totals when the check is enabled, blanks otherwise. */
  ghost function CpColumn(enableCp: bool, probs: seq<real>, k: nat): (column: seq<Option<real>>)
    requires k <= |probs|
    ensures |column| == k
  {
    if k == 0 then []
    else CpColumn(enableCp, probs, k - 1) + [if enableCp then Some(PrefixSum(probs, k)) else None]
  }

  /** An iteration that passes all three checks extends the continued prefix. */
  lemma ContinuedStep(gaps: seq<real>, arrivalProbs: seq<real>, serviceProbs: seq<real>,
                      horizon: real, enableCp: bool, k: nat)
    requires k < |gaps| == |arrivalProbs| == |serviceProbs|
    requires Continued(gaps, arrivalProbs, serviceProbs, horizon, enableCp, k)
    requires KeptDraw(gaps, arrivalProbs, serviceProbs, horizon, enableCp, k)
    ensures Continued(gaps, arrivalProbs, serviceProbs, horizon, enableCp, k + 1)
  {
  }

  lemma CpColumnStep(enableCp: bool, probs: seq<real>, k: nat, total: real)
    requires k < |probs| && (enableCp ==> total == PrefixSum(probs, k) + probs[k])
    ensures CpColumn(enableCp, probs, k + 1) == CpColumn(enableCp, probs, k) + [if enableCp then Some(total) else None]
  {
  }

  lemma CpBreakFrom(arrivalProbs: seq<real>, serviceProbs: seq<real>, k: nat, enableCp: bool, totalA: real, totalS: real)
    requires k < |arrivalProbs| && k < |serviceProbs|
    requires enableCp ==> totalA == PrefixSum(arrivalProbs, k) && totalS == PrefixSum(serviceProbs, k)
    ensures enableCp && CpBreak(arrivalProbs, serviceProbs, k) <==>
      enableCp && totalA + arrivalProbs[k] > 1.0 && totalS + serviceProbs[k] > 1.0
  {
  }

  datatype PatientRun = PatientRun(
    arrivals: seq<real>,
    services: seq<real>,
    arrivalCp: seq<Option<real>>,
    serviceCp: seq<Option<real>>,
    stop: StopReason)

  /** The variables of the arrival loop at the top of an iteration. */
  datatype LoopState = LoopState(
    drawn: nat,
    arrivals: seq<real>,
    services: seq<real>,
    arrivalCp: seq<Option<real>>,
    serviceCp: seq<Option<real>>,
    currentTime: real,
    totalCpA: real,
    totalCpS: real)

  /** The loop's variables before the first iteration. */
  const Initial: LoopState := LoopState(0, [], [], [], [], 0.0, 0.0, 0.0)

  /**
   * The run the arrival loop produces when it resumes in state `st`, one
   * iteration per recursive call, given the durations it draws and their CDF
   * values.
   */
  ghost function RunFrom(gaps: seq<real>, serviceTimes: seq<real>, arrivalProbs: seq<real>, serviceProbs: seq<real>,
                         horizon: real, enableCp: bool, st: LoopState): PatientRun
    requires st.drawn <= |gaps| == |serviceTimes| == |arrivalProbs| == |serviceProbs|
    decreases |gaps| - st.drawn
  {
    var k := st.drawn;
    if st.currentTime >= horizon then
      PatientRun(st.arrivals, st.services, st.arrivalCp, st.serviceCp, HorizonReached)
    else if k == |gaps| then
      PatientRun(st.arrivals, st.services, st.arrivalCp, st.serviceCp, DrawsExhausted)
    else if enableCp && st.totalCpA + arrivalProbs[k] > 1.0 && st.totalCpS + serviceProbs[k] > 1.0 then
      PatientRun(st.arrivals, st.services, st.arrivalCp, st.serviceCp, CumulativeProbabilityLimit)
    else
      var next := Advance(gaps, serviceTimes, arrivalProbs, serviceProbs, enableCp, st);
      if next.currentTime > horizon then
        PatientRun(st.arrivals, st.services, next.arrivalCp, next.serviceCp, HorizonOvershot)
      else
        RunFrom(gaps, serviceTimes, arrivalProbs, serviceProbs, horizon, enableCp, next)
  }

  /** The state after an iteration that passed the C.P. check and kept its draw. */
  ghost function Advance(gaps: seq<real>, serviceTimes: seq<real>, arrivalProbs: seq<real>, serviceProbs: seq<real>,
                         enableCp: bool, st: LoopState): (next: LoopState)
    requires st.drawn < |gaps| == |serviceTimes| == |arrivalProbs| == |serviceProbs|
    ensures next.drawn == st.drawn + 1
  {
    var k := st.drawn;
    var totalCpA := if enableCp then st.totalCpA + arrivalProbs[k] else st.totalCpA;
    var totalCpS := if enableCp then st.totalCpS + serviceProbs[k] else st.totalCpS;
    var time := st.currentTime + gaps[k];
    LoopState(k + 1, st.arrivals + [time], st.services + [serviceTimes[k]],
              st.arrivalCp + [if enableCp then Some(totalCpA) else None],
              st.serviceCp + [if enableCp then Some(totalCpS) else None],
              time, totalCpA, totalCpS)
  }

  /**
   * Resumed from a state whose clock and totals are the prefix sums of the
   * draws so far, after iterations that all continued, the loop stops as
   * StoppedAt describes.
   */
  lemma {:induction false} RunFromStops(gaps: seq<real>, serviceTimes: seq<real>, arrivalProbs: seq<real>,
                                        serviceProbs: seq<real>, horizon: real, enableCp: bool, st: LoopState)
    requires st.drawn <= |gaps| == |serviceTimes| == |arrivalProbs| == |serviceProbs|
    requires |st.arrivals| == st.drawn && st.currentTime == PrefixSum(gaps, st.drawn)
    requires enableCp ==>
      st.totalCpA == PrefixSum(arrivalProbs, st.drawn) && st.totalCpS == PrefixSum(serviceProbs, st.drawn)
    requires Continued(gaps, arrivalProbs, serviceProbs, horizon, enableCp, st.drawn)
    ensures var run := RunFrom(gaps, serviceTimes, arrivalProbs, serviceProbs, horizon, enableCp, st);
      StoppedAt(gaps, arrivalProbs, serviceProbs, horizon, enableCp, |run.arrivals|, run.stop)
    decreases |gaps| - st.drawn
  {
    var k := st.drawn;
    if st.currentTime < horizon && k < |gaps| {
      CpBreakFrom(arrivalProbs, serviceProbs, k, enableCp, st.totalCpA, st.totalCpS);
      PrefixTotalsStep(gaps, k);
      if !(enableCp && CpBreak(arrivalProbs, serviceProbs, k)) && PrefixSum(gaps, k + 1) <= horizon {
        ContinuedStep(gaps, arrivalProbs, serviceProbs, horizon, enableCp, k);
        PrefixTotalsStep(arrivalProbs, k);
        PrefixTotalsStep(serviceProbs, k);
        RunFromStops(gaps, serviceTimes, arrivalProbs, serviceProbs, horizon, enableCp,
                     Advance(gaps, serviceTimes, arrivalProbs, serviceProbs, enableCp, st));
      }
    }
  }

  /**
   * Resumed from a state whose lists hold the arrival clocks and service
   * times of the draws so far, the loop's lists hold those of every
   * recorded patient.
   */
  lemma {:induction false} RunFromRecords(gaps: seq<real>, serviceTimes: seq<real>, arrivalProbs: seq<real>,
                                          serviceProbs: seq<real>, horizon: real, enableCp: bool, st: LoopState)
    requires st.drawn <= |gaps| == |serviceTimes| == |arrivalProbs| == |serviceProbs|
    requires st.currentTime == PrefixSum(gaps, st.drawn)
    requires st.arrivals == PrefixTotals(gaps, st.drawn) && st.services == serviceTimes[..st.drawn]
    ensures var run := RunFrom(gaps, serviceTimes, arrivalProbs, serviceProbs, horizon, enableCp, st);
      && |run.arrivals| == |run.services| <= |gaps|
      && run.arrivals == PrefixTotals(gaps, |run.arrivals|)
      && run.services == serviceTimes[..|run.arrivals|]
    decreases |gaps| - st.drawn
  {
    var k := st.drawn;
    if st.currentTime < horizon && k < |gaps| {
      PrefixTotalsStep(gaps, k);
      PrefixExtend(serviceTimes, k);
      RunFromRecords(gaps, serviceTimes, arrivalProbs, serviceProbs, horizon, enableCp,
                     Advance(gaps, serviceTimes, arrivalProbs, serviceProbs, enableCp, st));
    }
  }

  /**
   * Resumed from a state whose C.P. columns hold the running totals of the
   * draws so far, the loop's C.P. columns hold those of every iteration that
   * passed the C.P. check, an overshooting one included.
   */
  lemma {:induction false} RunFromCpColumns(gaps: seq<real>, serviceTimes: seq<real>, arrivalProbs: seq<real>,
                                            serviceProbs: seq<real>, horizon: real, enableCp: bool, st: LoopState)
    requires st.drawn <= |gaps| == |serviceTimes| == |arrivalProbs| == |serviceProbs|
    requires |st.arrivals| == st.drawn
    requires enableCp ==>
      st.totalCpA == PrefixSum(arrivalProbs, st.drawn) && st.totalCpS == PrefixSum(serviceProbs, st.drawn)
    requires st.arrivalCp == CpColumn(enableCp, arrivalProbs, st.drawn)
    requires st.serviceCp == CpColumn(enableCp, serviceProbs, st.drawn)
    ensures var run := RunFrom(gaps, serviceTimes, arrivalProbs, serviceProbs, horizon, enableCp, st);
      && |run.arrivalCp| == |run.serviceCp| ==
           (if run.stop == HorizonOvershot then |run.arrivals| + 1 else |run.arrivals|)
      && |run.arrivalCp| <= |gaps|
      && run.arrivalCp == CpColumn(enableCp, arrivalProbs, |run.arrivalCp|)
      && run.serviceCp == CpColumn(enableCp, serviceProbs, |run.serviceCp|)
    decreases |gaps| - st.drawn
  {
    var k := st.drawn;
    if st.currentTime < horizon && k < |gaps| {
      var next := Advance(gaps, serviceTimes, arrivalProbs, serviceProbs, enableCp, st);
      CpColumnStep(enableCp, arrivalProbs, k, next.totalCpA);
      CpColumnStep(enableCp, serviceProbs, k, next.totalCpS);
      RunFromCpColumns(gaps, serviceTimes, arrivalProbs, serviceProbs, horizon, enableCp, next);
    }
  }

  /**
   * What a run of the arrival loop records, given the durations it draws and
   * their CDF values: the arrival clocks are the running sums of the gaps and
   * the service times the draws, one per recorded patient; the loop stopped
   * as StoppedAt describes; and the C.P. columns hold the running CDF totals
   * (blanks when the check is off), with one extra entry for an overshooting
   * draw, because they are appended before the horizon check.
   */
  ghost predicate Recorded(gaps: seq<real>, serviceTimes: seq<real>, arrivalProbs: seq<real>, serviceProbs: seq<real>,
                           horizon: real, enableCp: bool, run: PatientRun)
    requires |gaps| == |serviceTimes| == |arrivalProbs| == |serviceProbs|
  {
    && |run.arrivals| == |run.services| <= |gaps|
    && run.arrivals == PrefixTotals(gaps, |run.arrivals|)
    && run.services == serviceTimes[..|run.arrivals|]
    && StoppedAt(gaps, arrivalProbs, serviceProbs, horizon, enableCp, |run.arrivals|, run.stop)
    && |run.arrivalCp| == |run.serviceCp| ==
         (if run.stop == HorizonOvershot then |run.arrivals| + 1 else |run.arrivals|)
    && run.arrivalCp == CpColumn(enableCp, arrivalProbs, |run.arrivalCp|)
    && run.serviceCp == CpColumn(enableCp, serviceProbs, |run.serviceCp|)
  }

  /** The run of the whole loop records what Recorded describes. */
  lemma RunMeetsSpec(gaps: seq<real>, serviceTimes: seq<real>, arrivalProbs: seq<real>, serviceProbs: seq<real>,
                     horizon: real, enableCp: bool, run: PatientRun)
    requires |gaps| == |serviceTimes| == |arrivalProbs| == |serviceProbs|
    requires run == RunFrom(gaps, serviceTimes, arrivalProbs, serviceProbs, horizon, enableCp, Initial)
    ensures Recorded(gaps, serviceTimes, arrivalProbs, serviceProbs, horizon, enableCp, run)
  {
    assert serviceTimes[..0] == [];
    RunFromStops(gaps, serviceTimes, arrivalProbs, serviceProbs, horizon, enableCp, Initial);
    RunFromRecords(gaps, serviceTimes, arrivalProbs, serviceProbs, horizon, enableCp, Initial);
    RunFromCpColumns(gaps, serviceTimes, arrivalProbs, serviceProbs, horizon, enableCp, Initial);
  }

  /** Iteration `k` draws the k-th duration of each kind and its CDF value. */
  lemma DrawnAt(arrival: DistSpec, service: DistSpec, draws: seq<Draw>, libraryCdf: (Law, real) -> real, k: nat)
    requires ValidDraws(arrival, service, draws) && k < |draws|
    ensures ValidVariate(arrival.kind, draws[k].arrivalVariate) && ValidVariate(service.kind, draws[k].serviceVariate)
    ensures ArrivalGaps(arrival, draws)[k] == GenerateTime(arrival, draws[k].arrivalVariate)
    ensures ServiceDraws(service, draws)[k] == GenerateTime(service, draws[k].serviceVariate)
    ensures Probabilities(arrival, ArrivalGaps(arrival, draws), libraryCdf)[k] ==
      GetCdf(ArrivalGaps(arrival, draws)[k], arrival, libraryCdf)
    ensures Probabilities(service, ServiceDraws(service, draws), libraryCdf)[k] ==
      GetCdf(ServiceDraws(service, draws)[k], service, libraryCdf)
  {
  }

  /**
   * The arrival loop.  Each iteration draws an inter-arrival time and a
   * service time; with the C.P. check enabled it breaks when both running
   * totals would exceed 1, and otherwise adds the two CDF values to them and
   * records the totals.  It then advances the clock, drops the draw and
   * stops if the clock passed the horizon, and records the patient.
   */
  method SimulatePatients(arrival: DistSpec, service: DistSpec, draws: seq<Draw>, horizon: real,
                          enableCp: bool, libraryCdf: (Law, real) -> real)
    returns (run: PatientRun)
    requires ValidDraws(arrival, service, draws)
    ensures run == RunFrom(ArrivalGaps(arrival, draws), ServiceDraws(service, draws),
                           Probabilities(arrival, ArrivalGaps(arrival, draws), libraryCdf),
                           Probabilities(service, ServiceDraws(service, draws), libraryCdf),
                           horizon, enableCp, Initial)
    ensures Recorded(ArrivalGaps(arrival, draws), ServiceDraws(service, draws),
                     Probabilities(arrival, ArrivalGaps(arrival, draws), libraryCdf),
                     Probabilities(service, ServiceDraws(service, draws), libraryCdf),
                     horizon, enableCp, run)
  {
    ghost var gaps := ArrivalGaps(arrival, draws);
    ghost var serviceTimes := ServiceDraws(service, draws);
    ghost var arrivalProbs := Probabilities(arrival, gaps, libraryCdf);
    ghost var serviceProbs := Probabilities(service, serviceTimes, libraryCdf);
    ghost var whole := RunFrom(gaps, serviceTimes, arrivalProbs, serviceProbs, horizon, enableCp, Initial);
    var arrivals: seq<real> := [];
    var services: seq<real> := [];
    var arrivalCp: seq<Option<real>> := [];
    var serviceCp: seq<Option<real>> := [];
    var currentTime := 0.0;
    var totalCpA := 0.0;
    var totalCpS := 0.0;
    var drawn := 0;
    var stop := HorizonReached;
    while currentTime < horizon
      invariant drawn <= |draws|
      invariant whole == RunFrom(gaps, serviceTimes, arrivalProbs, serviceProbs, horizon, enableCp,
        LoopState(drawn, arrivals, services, arrivalCp, serviceCp, currentTime, totalCpA, totalCpS))
      invariant stop == HorizonReached
      decreases |draws| - drawn
    {
      if drawn == |draws| {
        stop := DrawsExhausted;
        break;
      }
      DrawnAt(arrival, service, draws, libraryCdf, drawn);
      var a := GenerateTime(arrival, draws[drawn].arrivalVariate);
      var s := GenerateTime(service, draws[drawn].serviceVariate);
      var cpA := GetCdf(a, arrival, libraryCdf);
      var cpS := GetCdf(s, service, libraryCdf);
      ghost var st := LoopState(drawn, arrivals, services, arrivalCp, serviceCp, currentTime, totalCpA, totalCpS);
      ghost var next := Advance(gaps, serviceTimes, arrivalProbs, serviceProbs, enableCp, st);
      if enableCp {
        if totalCpA + cpA > 1.0 && totalCpS + cpS > 1.0 {
          stop := CumulativeProbabilityLimit;
          break;
        }
        totalCpA := totalCpA + cpA;
        totalCpS := totalCpS + cpS;
        arrivalCp := arrivalCp + [Some(totalCpA)];
        serviceCp := serviceCp + [Some(totalCpS)];
      } else {
        arrivalCp := arrivalCp + [None];
        serviceCp := serviceCp + [None];
      }
      currentTime := currentTime + a;
      assert next.currentTime == currentTime && next.arrivalCp == arrivalCp && next.serviceCp == serviceCp;
      if currentTime > horizon {
        stop := HorizonOvershot;
        break;
      }
      arrivals := arrivals + [currentTime];
      services := services + [s];
      drawn := drawn + 1;
      assert next == LoopState(drawn, arrivals, services, arrivalCp, serviceCp, currentTime, totalCpA, totalCpS);
    }
    run := PatientRun(arrivals, services, arrivalCp, serviceCp, stop);
    RunMeetsSpec(gaps, serviceTimes, arrivalProbs, serviceProbs, horizon, enableCp, run);
  }


  // ---------------------------------------------------------------------
  // What a run guarantees
  // ---------------------------------------------------------------------

  /** Every iteration before the stop ran to the end. */
  lemma {:induction false} ContinuedAt(gaps: seq<real>, arrivalProbs: seq<real>, serviceProbs: seq<real>,
                                       horizon: real, enableCp: bool, count: nat, j: nat)
    requires j < count <= |gaps| == |arrivalProbs| == |serviceProbs|
    requires Continued(gaps, arrivalProbs, serviceProbs, horizon, enableCp, count)
    ensures KeptDraw(gaps, arrivalProbs, serviceProbs, horizon, enableCp, j)
  {
    if j < count - 1 {
      ContinuedAt(gaps, arrivalProbs, serviceProbs, horizon, enableCp, count - 1, j);
    }
  }

  /**
   * The draws determine where and why the loop stops: two stopping points
   * that both satisfy StoppedAt coincide.
   */
  lemma StopDetermined(gaps: seq<real>, arrivalProbs: seq<real>, serviceProbs: seq<real>,
                       horizon: real, enableCp: bool, count: nat, stop: StopReason,
                       count': nat, stop': StopReason)
    requires |gaps| == |arrivalProbs| == |serviceProbs|
    requires StoppedAt(gaps, arrivalProbs, serviceProbs, horizon, enableCp, count, stop)
    requires StoppedAt(gaps, arrivalProbs, serviceProbs, horizon, enableCp, count', stop')
    ensures count == count' && stop == stop'
  {
    if count < count' {
      ContinuedAt(gaps, arrivalProbs, serviceProbs, horizon, enableCp, count', count);
    } else if count' < count {
      ContinuedAt(gaps, arrivalProbs, serviceProbs, horizon, enableCp, count, count');
    }
  }

  /**
   * The recorded arrival clocks never decrease and never pass the horizon;
   * every patient but the last arrived strictly before it, since the loop
   * went on after each of them.
   */
  lemma RecordedArrivals(gaps: seq<real>, serviceTimes: seq<real>, arrivalProbs: seq<real>, serviceProbs: seq<real>,
                         horizon: real, enableCp: bool, run: PatientRun)
    requires |gaps| == |serviceTimes| == |arrivalProbs| == |serviceProbs| && AllAtLeast(gaps, 0.0)
    requires Recorded(gaps, serviceTimes, arrivalProbs, serviceProbs, horizon, enableCp, run)
    ensures forall i :: 0 <= i < |run.arrivals| ==> 0.0 <= run.arrivals[i] <= horizon
    ensures forall i :: 0 <= i < |run.arrivals| - 1 ==> run.arrivals[i] < horizon
    ensures forall i, j :: 0 <= i < j < |run.arrivals| ==> run.arrivals[i] <= run.arrivals[j]
  {
    var n := |run.arrivals|;
    forall i | 0 <= i < n ensures run.arrivals[i] == PrefixSum(gaps, i + 1) <= horizon {
      PrefixTotalAt(gaps, n, i);
      ContinuedAt(gaps, arrivalProbs, serviceProbs, horizon, enableCp, n, i);
    }
    forall i | 0 <= i < n - 1 ensures run.arrivals[i] < horizon {
      ContinuedAt(gaps, arrivalProbs, serviceProbs, horizon, enableCp, n, i + 1);
    }
    forall i | 0 <= i < n ensures 0.0 <= run.arrivals[i] {
      PrefixSumGrows(gaps, 0.0, 0, i + 1);
    }
    forall i, j | 0 <= i < j < n ensures run.arrivals[i] <= run.arrivals[j] {
      PrefixSumGrows(gaps, 0.0, i + 1, j + 1);
    }
  }

  /**
   * The loop condition ends a run only when the clock lands exactly on the
   * horizon: a draw that would pass it is discarded instead.  So a run that
   * stops on the loop condition has its last patient arriving at the horizon
   * itself, or no patient at all when the horizon is not positive.
   */
  lemma HorizonReachedExactly(gaps: seq<real>, serviceTimes: seq<real>, arrivalProbs: seq<real>,
                              serviceProbs: seq<real>, horizon: real, enableCp: bool, run: PatientRun)
    requires |gaps| == |serviceTimes| == |arrivalProbs| == |serviceProbs|
    requires Recorded(gaps, serviceTimes, arrivalProbs, serviceProbs, horizon, enableCp, run)
    requires run.stop == HorizonReached
    ensures |run.arrivals| == 0 ==> horizon <= 0.0
    ensures |run.arrivals| > 0 ==> run.arrivals[|run.arrivals| - 1] == horizon
  {
    var n := |run.arrivals|;
    if n > 0 {
      PrefixTotalAt(gaps, n, n - 1);
    }
  }

  /**
   * The C.P. columns: blanks when the check is off; otherwise entry i is the
   * running total of the first i + 1 CDF values, and the totals never
   * decrease when the CDF values are probabilities.
   */
  lemma {:induction false} CpColumnEntries(enableCp: bool, probs: seq<real>, k: nat)
    requires k <= |probs|
    ensures !enableCp ==> forall i :: 0 <= i < k ==> CpColumn(enableCp, probs, k)[i] == None
    ensures enableCp ==> forall i :: 0 <= i < k ==> CpColumn(enableCp, probs, k)[i] == Some(PrefixSum(probs, i + 1))
    ensures enableCp && AllAtLeast(probs, 0.0) ==>
      forall i, j :: 0 <= i < j < k ==>
        CpColumn(enableCp, probs, k)[i].value <= CpColumn(enableCp, probs, k)[j].value
  {
    if k > 0 {
      CpColumnEntries(enableCp, probs, k - 1);
      var column := CpColumn(enableCp, probs, k);
      assert column == CpColumn(enableCp, probs, k - 1) + [column[k - 1]];
      if enableCp && AllAtLeast(probs, 0.0) {
        forall i, j | 0 <= i < j < k ensures column[i].value <= column[j].value {
          PrefixSumGrows(probs, 0.0, i + 1, j + 1);
        }
      }
    }
  }

  // ---------------------------------------------------------------------
  // Queue calculations and the summary
  // ---------------------------------------------------------------------

  /**
   * The first n rows of the per-patient table: start, completion, waiting,
   * turnaround and response time (the response time is the waiting time).
   */
  ghost predicate QueueTable(arrivals: seq<real>, services: seq<real>, start: seq<real>, complete: seq<real>,
                             waiting: seq<real>, turnaround: seq<real>, response: seq<real>, n: nat)
    requires Schedulable(arrivals, services)
  {
    && n <= |arrivals|
    && |start| == |complete| == |waiting| == |turnaround| == |response| == n
    && forall k :: 0 <= k < n ==>
      && start[k] == Start(arrivals, services, k)
      && complete[k] == Completion(arrivals, services, k)
      && waiting[k] == start[k] - arrivals[k]
      && turnaround[k] == complete[k] - arrivals[k]
      && response[k] == waiting[k]
  }

  /** Appending the next patient's row extends the table by one. */
  lemma QueueTableStep(arrivals: seq<real>, services: seq<real>, start: seq<real>, complete: seq<real>,
                       waiting: seq<real>, turnaround: seq<real>, response: seq<real>, n: nat)
    requires Schedulable(arrivals, services) && n < |arrivals|
    requires QueueTable(arrivals, services, start, complete, waiting, turnaround, response, n)
    ensures var begin := Start(arrivals, services, n);
      var end := Completion(arrivals, services, n);
      QueueTable(arrivals, services, start + [begin], complete + [end], waiting + [begin - arrivals[n]],
                 turnaround + [end - arrivals[n]], response + [begin - arrivals[n]], n + 1)
  {
  }

  /**
   * The per-patient timings, appended in arrival order: each patient starts
   * at the later of its arrival and the previous completion.
   */
  method QueueCalculations(arrivals: seq<real>, services: seq<real>)
    returns (start: seq<real>, complete: seq<real>, waiting: seq<real>, turnaround: seq<real>, response: seq<real>)
    requires Schedulable(arrivals, services)
    ensures QueueTable(arrivals, services, start, complete, waiting, turnaround, response, |arrivals|)
  {
    start, complete, waiting, turnaround, response := [], [], [], [], [];
    for i := 0 to |arrivals|
      invariant QueueTable(arrivals, services, start, complete, waiting, turnaround, response, i)
    {
      var begin := if i == 0 then arrivals[i] else Max(arrivals[i], complete[i - 1]);
      var end := begin + services[i];
      var wait := begin - arrivals[i];
      var tat := end - arrivals[i];
      QueueTableStep(arrivals, services, start, complete, waiting, turnaround, response, i);
      start := start + [begin];
      complete := complete + [end];
      waiting := waiting + [wait];
      turnaround := turnaround + [tat];
      response := response + [wait];
    }
  }

  /**
   * Why the summary after the queue table is not reached: the C.P. columns
   * do not fit a non-empty table (pandas refuses a column whose length
   * differs from the number of rows; a table with no rows instead takes its
   * index from the column), or the utilization is undefined.
   */
  datatype SummaryError = CpColumnLengthMismatch | UtilizationUndefined(reason: UtilizationError)

  /**
   * What pressing "Run Simulation" computes: the patients, their completion
   * times and the utilization.  With the C.P. check enabled, a run that
   * recorded a patient and ends on an overshooting draw has one C.P. entry
   * more than it has patients, and the page fails while building the table;
   * this is the only way the columns can disagree with a non-empty table.
   * A run with no patient fails at the utilization, whatever its C.P.
   * columns.  Otherwise the utilization is defined for every run whose span
   * is not zero, and is then a fraction.
   */
  method RunSimulation(arrival: DistSpec, service: DistSpec, draws: seq<Draw>, horizon: real,
                       enableCp: bool, libraryCdf: (Law, real) -> real)
    returns (run: PatientRun, complete: seq<real>, utilization: Result<real, SummaryError>)
    requires ValidDraws(arrival, service, draws)
    ensures Recorded(ArrivalGaps(arrival, draws), ServiceDraws(service, draws),
                     Probabilities(arrival, ArrivalGaps(arrival, draws), libraryCdf),
                     Probabilities(service, ServiceDraws(service, draws), libraryCdf),
                     horizon, enableCp, run)
    ensures forall i :: 0 <= i < |run.arrivals| ==> 0.0 <= run.arrivals[i] <= horizon
    ensures forall i, j :: 0 <= i < j < |run.arrivals| ==> run.arrivals[i] <= run.arrivals[j]
    ensures IsSchedule(run.arrivals, run.services, complete)
    ensures utilization == Failure(CpColumnLengthMismatch) <==>
      enableCp && |run.arrivals| > 0 &&
      (|run.arrivalCp| != |run.arrivals| || |run.serviceCp| != |run.arrivals|)
    ensures utilization == Failure(CpColumnLengthMismatch) <==>
      enableCp && run.stop == HorizonOvershot && |run.arrivals| > 0
    ensures utilization != Failure(CpColumnLengthMismatch) ==>
      match Utilization(run.arrivals, run.services, complete)
      case Success(u) => utilization == Success(u)
      case Failure(e) => utilization == Failure(UtilizationUndefined(e))
    ensures utilization == Failure(UtilizationUndefined(EmptyRun)) <==> |run.arrivals| == 0
    ensures utilization.Success? ==> 0.0 <= utilization.value <= 1.0
  {
    run := SimulatePatients(arrival, service, draws, horizon, enableCp, libraryCdf);
    ghost var gaps := ArrivalGaps(arrival, draws);
    ghost var serviceTimes := ServiceDraws(service, draws);
    ghost var arrivalProbs := Probabilities(arrival, gaps, libraryCdf);
    ghost var serviceProbs := Probabilities(service, serviceTimes, libraryCdf);
    RunMeetsSpec(gaps, serviceTimes, arrivalProbs, serviceProbs, horizon, enableCp, run);
    var start, waiting, turnaround, response;
    start, complete, waiting, turnaround, response := QueueCalculations(run.arrivals, run.services);
    RecordedArrivals(gaps, serviceTimes, arrivalProbs, serviceProbs, horizon, enableCp, run);
    if enableCp && |run.arrivals| > 0 &&
       (|run.arrivalCp| != |run.arrivals| || |run.serviceCp| != |run.arrivals|) {
      utilization := Failure(CpColumnLengthMismatch);
    } else {
      match Utilization(run.arrivals, run.services, complete)
      case Success(u) =>
        PrefixAllAtLeast(serviceTimes, 0.0, |run.arrivals|);
        UtilizationAtMostOne(run.arrivals, run.services, complete);
        utilization := Success(u);
      case Failure(e) =>
        utilization := Failure(UtilizationUndefined(e));
    }
  }

  // ---------------------------------------------------------------------
  // Chi-square goodness of fit
  // ---------------------------------------------------------------------

  /** The CDF of the configured law at every histogram edge. */
  function EdgeCdfs(edges: seq<real>, spec: DistSpec, libraryCdf: (Law, real) -> real): seq<real>
    requires ValidSpec(spec)
  {
    seq(|edges|, i requires 0 <= i < |edges| => GetCdf(edges[i], spec, libraryCdf))
  }

  /**
   * The expected probability of each histogram bin: the CDF at its upper
   * edge minus the CDF at its lower edge, appended bin by bin.
   */
  method BinProbabilities(edges: seq<real>, spec: DistSpec, libraryCdf: (Law, real) -> real)
    returns (expected: seq<real>)
    requires ValidSpec(spec) && |edges| >= 1
    ensures expected == Differences(EdgeCdfs(edges, spec, libraryCdf))
  {
    expected := [];
    for i := 0 to |edges| - 1
      invariant |expected| == i
      invariant forall k :: 0 <= k < i ==>
        expected[k] == GetCdf(edges[k + 1], spec, libraryCdf) - GetCdf(edges[k], spec, libraryCdf)
    {
      var low, high := edges[i], edges[i + 1];
      var prob := GetCdf(high, spec, libraryCdf) - GetCdf(low, spec, libraryCdf);
      expected := expected + [prob];
    }
  }

  /** Bin probabilities are non-negative for ascending edges and a CDF library. */
  lemma BinProbabilitiesNonNegative(edges: seq<real>, spec: DistSpec, libraryCdf: (Law, real) -> real)
    requires ValidSpec(spec) && |edges| >= 1 && IsCdfLibrary(libraryCdf)
    requires forall i :: 0 <= i < |edges| - 1 ==> edges[i] <= edges[i + 1]
    ensures AllAtLeast(Differences(EdgeCdfs(edges, spec, libraryCdf)), 0.0)
  {
    var mass := Differences(EdgeCdfs(edges, spec, libraryCdf));
    forall i | 0 <= i < |mass| ensures 0.0 <= mass[i] {
      GetCdfMonotone(edges[i], edges[i + 1], spec, libraryCdf);
    }
  }

  datatype FitReport = FitReport(expected: seq<real>, pValue: real, verdict: Verdict)

  /**
   * The page's Chi-square test of one sample, given numpy's histogram
   * (`observed` counts and the bin `edges`) and scipy's p-value.  The bin
   * probabilities add up to the mass between the outer edges, so the
   * normalisation fails exactly when that mass is zero, as it always is for
   * an unrecognised kind; a Uniform law whose support lies within the outer
   * edges has all its mass there, and the test goes through.
   */
  method ChiSquareTest(observed: seq<nat>, edges: seq<real>, spec: DistSpec,
                       libraryCdf: (Law, real) -> real, pValueOf: (seq<nat>, seq<real>) -> real)
    returns (r: Result<FitReport, FitError>)
    requires ValidSpec(spec) && |edges| == |observed| + 1
    ensures r.Failure? ==> r.error == ZeroExpectedTotal
    ensures r.Failure? <==>
      GetCdf(edges[|observed|], spec, libraryCdf) == GetCdf(edges[0], spec, libraryCdf)
    ensures spec.kind == Unrecognised ==> r.Failure?
    ensures spec.kind == Uniform && edges[0] <= UniformLow(spec.mean) && UniformHigh(spec.mean) <= edges[|observed|]
      ==> r.Success?
    ensures r.Success? ==>
      && |r.value.expected| == |observed|
      && Sum(r.value.expected) == Sum(Counts(observed))
      && Normalized(observed, Differences(EdgeCdfs(edges, spec, libraryCdf))) == Success(r.value.expected)
    ensures r.Success? ==> r.value.pValue == pValueOf(observed, r.value.expected)
    ensures r.Success? ==> (r.value.verdict == Accepted <==> r.value.pValue > SignificanceLevel)
  {
    var expected := BinProbabilities(edges, spec, libraryCdf);
    SumDifferences(EdgeCdfs(edges, spec, libraryCdf));
    var normalized := Normalized(observed, expected);
    if normalized.Failure? {
      r := Failure(normalized.error);
    } else {
      var p := pValueOf(observed, normalized.value);
      r := Success(FitReport(normalized.value, p, Decide(p)));
    }
  }
}
