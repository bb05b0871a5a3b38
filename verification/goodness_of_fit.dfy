/**
 * The arithmetic around the Chi-square goodness-of-fit test that both
 * pages share: expected frequencies are rescaled so that they add up to the
 * number of observations, and the fit is accepted when the p-value exceeds
 * the 5% significance level.  The statistic and p-value themselves come
 * from scipy and are inputs here.
 */
module GoodnessOfFit {
  import opened Sums
  import opened Wrappers

  datatype Verdict = Accepted | Rejected

  const SignificanceLevel: real := 0.05

  /** "Fail to reject" (Accepted) exactly when p > 0.05. */
  function Decide(pValue: real): (v: Verdict)
    ensures v == Accepted <==> pValue > SignificanceLevel
  {
    if pValue > SignificanceLevel then Accepted else Rejected
  }

  datatype FitError =
    | ZeroExpectedTotal   // the normalising division has a zero denominator
    | IntegerArrayCast    // an in-place float product on an integer numpy array

  /** The factor sum(observed) / sum(expected). */
  function RescaleFactor(observed: seq<nat>, expected: seq<real>): (r: Result<real, FitError>)
    ensures r.Failure? <==> Sum(expected) == 0.0
    ensures r.Success? ==> r.value * Sum(expected) == Sum(Counts(observed))
  {
    if Sum(expected) == 0.0 then Failure(ZeroExpectedTotal)
    else Success(Sum(Counts(observed)) / Sum(expected))
  }

  /**
   * Expected frequencies rescaled by RescaleFactor: proportional to the
   * input and balanced against the observed total.
   */
  function Normalized(observed: seq<nat>, expected: seq<real>): (r: Result<seq<real>, FitError>)
    ensures r.Failure? <==> Sum(expected) == 0.0
    ensures r.Success? ==> |r.value| == |expected| && Sum(r.value) == Sum(Counts(observed))
    ensures r.Success? ==>
      forall i :: 0 <= i < |expected| ==> r.value[i] * Sum(expected) == expected[i] * Sum(Counts(observed))
  {
    match RescaleFactor(observed, expected)
    case Failure(e) => Failure(e)
    case Success(factor) =>
      SumScaled(expected, factor);
      Success(Scaled(expected, factor))
  }
}
