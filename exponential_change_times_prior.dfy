/**
 * The prior on a vector of change times under which the intervals between
 * successive times, starting from 0, are exponential with a common mean.
 * The log density is the sum of -(interval)/mean over the intervals.
 */
module ExponentialChangeTimesPrior {
  import opened Wrappers
  import opened Doubles
  import opened Parameters

  /** UnsupportedOperationException, thrown by sample. */
  datatype PriorError = SamplingNotSupported

  /** The time before entry i: the previous entry, or 0 before the first. */
  function Previous(times: seq<real>, i: nat): real
    requires i <= |times|
  {
    if i == 0 then 0.0 else times[i - 1]
  }

  /** The term of interval i: -(t_i - t_{i-1}) / mean, in double arithmetic. */
  function Term(times: seq<real>, mean: real, i: nat): Double
    requires i < |times|
  {
    Div(-(times[i] - Previous(times, i)), mean)
  }

  /** The log density accumulated over the first n intervals. */
  function LogPPrefix(times: seq<real>, mean: real, n: nat): Double
    requires n <= |times|
  {
    if n == 0 then Finite(0.0) else Add(LogPPrefix(times, mean, n - 1), Term(times, mean, n - 1))
  }

  /** calculateLogP over the whole vector. */
  function LogP(times: seq<real>, mean: real): Double
  {
    LogPPrefix(times, mean, |times|)
  }

  lemma DivAdd(a: real, b: real, m: real)
    requires m != 0.0
    ensures a / m + b / m == (a + b) / m
  {
  }

  /**
   * With a non-zero mean the sum telescopes: after n intervals it is minus
   * the n-th time over the mean. No ordering of the times is assumed, so
   * out-of-order times are scored the same way.
   */
  lemma {:induction false} Telescopes(times: seq<real>, mean: real, n: nat)
    requires n <= |times| && mean != 0.0
    ensures LogPPrefix(times, mean, n) == Finite(-Previous(times, n) / mean)
  {
    if n > 0 {
      Telescopes(times, mean, n - 1);
      var last := Previous(times, n - 1);
      DivAdd(-last, -(times[n - 1] - last), mean);
      assert -last + -(times[n - 1] - last) == -times[n - 1];
    }
  }

  /** The whole log density: 0 for no change times, and -t_last / mean otherwise when the mean is not 0. */
  lemma LogPMeaning(times: seq<real>, mean: real)
    ensures times == [] ==> LogP(times, mean) == Finite(0.0)
    ensures times != [] && mean != 0.0 ==> LogP(times, mean) == Finite(-times[|times| - 1] / mean)
    ensures times != [] && mean == 0.0 ==> !LogP(times, mean).Finite?
  {
    if times != [] && mean == 0.0 {
      ZeroMeanNotFinite(times, |times|);
    }
    if times != [] && mean != 0.0 {
      Telescopes(times, mean, |times|);
    }
  }

  /** With a zero mean every term is an infinity or NaN, and so is their sum once there is a term. */
  lemma {:induction false} ZeroMeanNotFinite(times: seq<real>, n: nat)
    requires 0 < n <= |times|
    ensures !LogPPrefix(times, 0.0, n).Finite?
  {
    if n > 1 {
      ZeroMeanNotFinite(times, n - 1);
    }
  }

  class ExponentialChangeTimesPrior {
    var changeTimes: RealParameter
    var meanInterval: RealParameter
    var logP: Double

    constructor(changeTimes0: RealParameter, meanInterval0: RealParameter)
      ensures changeTimes == changeTimes0 && meanInterval == meanInterval0 && logP == Finite(0.0)
    {
      changeTimes := changeTimes0;
      meanInterval := meanInterval0;
      logP := Finite(0.0);
    }

    /** calculateLogP: the loop over the change times, keeping the previous one. */
    method CalculateLogP() returns (r: Double)
      requires |meanInterval.values| >= 1
      modifies this
      ensures changeTimes == old(changeTimes) && meanInterval == old(meanInterval)
      ensures r == logP == LogP(changeTimes.values, meanInterval.values[0])
    {
      var times := changeTimes.values;
      var mean := meanInterval.values[0];
      var acc := Finite(0.0);
      var lastVal := 0.0;
      var i := 0;
      while i < |times|
        invariant 0 <= i <= |times|
        invariant acc == LogPPrefix(times, mean, i)
        invariant lastVal == Previous(times, i)
      {
        var thisVal := times[i];
        acc := Add(acc, Div(-(thisVal - lastVal), mean));
        lastVal := thisVal;
        i := i + 1;
      }
      logP := acc;
      r := acc;
    }

    /** sample: not supported. */
    method Sample() returns (r: Result<(), PriorError>)
      ensures r == Err(SamplingNotSupported)
    {
      r := Err(SamplingNotSupported);
    }
  }
}
