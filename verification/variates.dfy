/**
 * Distribution kinds selectable on both pages, and the random draws that
 * stand in for numpy's generator.  Each loop iteration of either page
 * draws one inter-arrival variate and one service variate; a `Draw` holds
 * the pair as STANDARD variates, which the pages then transform with the
 * configured mean:
 *   Exponential: a standard exponential e >= 0, scaled by the mean;
 *   Poisson:     the drawn count itself;
 *   Uniform:     a unit variate u in [0, 1), mapped onto [low, high);
 *   Normal:      a standard normal z, shifted and scaled.
 */
module Variates {

  /** The selectbox options; `Unrecognised` is the trailing fallback branch. */
  datatype Dist = Exponential | Poisson | Uniform | Normal | Unrecognised

  /** A distribution kind with its mean parameter. */
  datatype DistSpec = DistSpec(kind: Dist, mean: real)

  datatype Draw = Draw(arrivalVariate: real, serviceVariate: real)

  /** Both pages' number inputs enforce a mean of at least 0.1. */
  predicate ValidSpec(spec: DistSpec)
  {
    spec.mean > 0.0
  }

  /** What numpy guarantees of a standard variate of each kind. */
  predicate ValidVariate(kind: Dist, u: real)
  {
    match kind
    case Exponential => u >= 0.0
    case Poisson => u >= 0.0 && u == u.Floor as real
    case Uniform => 0.0 <= u < 1.0
    case Normal => true
    case Unrecognised => true
  }

  predicate ValidArrivalVariates(arrival: DistSpec, draws: seq<Draw>)
  {
    forall i :: 0 <= i < |draws| ==> ValidVariate(arrival.kind, draws[i].arrivalVariate)
  }

  predicate ValidServiceVariates(service: DistSpec, draws: seq<Draw>)
  {
    forall i :: 0 <= i < |draws| ==> ValidVariate(service.kind, draws[i].serviceVariate)
  }

  /** Both means valid and every draw of the kinds the two specs select. */
  predicate ValidDraws(arrival: DistSpec, service: DistSpec, draws: seq<Draw>)
  {
    ValidSpec(arrival) && ValidSpec(service) &&
    ValidArrivalVariates(arrival, draws) && ValidServiceVariates(service, draws)
  }

  lemma ScaledNonNegative(w: real, u: real)
    requires w > 0.0 && u >= 0.0
    ensures w * u >= 0.0
  {
  }

  /** Uniform durations span [0.5·mean, 1.5·mean]. */
  function UniformLow(mean: real): real { mean * 0.5 }

  function UniformHigh(mean: real): real { mean * 1.5 }

  lemma FractionBelowWhole(w: real, u: real)
    requires w > 0.0 && 0.0 <= u < 1.0
    ensures 0.0 <= w * u < w
  {
    var rest := 1.0 - u;
    assert w * u + w * rest == w;
    assert w * rest > 0.0;
  }

  /** numpy's uniform(low, high) is low + (high - low)·u, and high - low is the mean. */
  function UniformSample(mean: real, u: real): (x: real)
    requires mean > 0.0 && 0.0 <= u < 1.0
    ensures UniformLow(mean) <= x < UniformHigh(mean)
  {
    FractionBelowWhole(mean, u);
    UniformLow(mean) + mean * u
  }
}
