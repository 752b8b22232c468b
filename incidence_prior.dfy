/**
 * The prior on incidence sample times: every time must lie within the
 * data's error of the corresponding age, and the log density is 0 when
 * all of them do and negative infinity otherwise.
 */
module IncidencePrior {
  import opened Wrappers
  import opened Doubles

  /** UnsupportedOperationException, thrown by sample. */
  datatype PriorError = SamplingNotSupported

  /** The lower bound of every age: the age minus the error. */
  function Lower(ages: seq<real>, error: real): (r: seq<real>)
    ensures |r| == |ages| && forall i :: 0 <= i < |ages| ==> r[i] == ages[i] - error
  {
    if ages == [] then [] else [ages[0] - error] + Lower(ages[1..], error)
  }

  /** The upper bound of every age: the age plus the error. */
  function Upper(ages: seq<real>, error: real): (r: seq<real>)
    ensures |r| == |ages| && forall i :: 0 <= i < |ages| ==> r[i] == ages[i] + error
  {
    if ages == [] then [] else [ages[0] + error] + Upper(ages[1..], error)
  }

  /** Whether value `i` lies in its closed interval. */
  predicate Within(values: seq<real>, lower: seq<real>, upper: seq<real>, i: nat)
    requires i < |values| && i < |lower| && i < |upper|
  {
    !(values[i] < lower[i] || values[i] > upper[i])
  }

  /** The first index from `i` on whose value leaves its interval, or the number of bounds when none does. */
  function FirstOutside(values: seq<real>, lower: seq<real>, upper: seq<real>, i: nat): (k: nat)
    requires |upper| == |lower| <= |values| && i <= |lower|
    ensures i <= k <= |lower|
    decreases |lower| - i
  {
    if i == |lower| then i
    else if !Within(values, lower, upper, i) then i
    else FirstOutside(values, lower, upper, i + 1)
  }

  lemma {:induction false} FirstOutsideMeaning(values: seq<real>, lower: seq<real>, upper: seq<real>, i: nat)
    requires |upper| == |lower| <= |values| && i <= |lower|
    ensures var k := FirstOutside(values, lower, upper, i);
            && (forall j :: i <= j < k ==> Within(values, lower, upper, j))
            && (k < |lower| ==> !Within(values, lower, upper, k))
    decreases |lower| - i
  {
    if i < |lower| && Within(values, lower, upper, i) {
      FirstOutsideMeaning(values, lower, upper, i + 1);
    }
  }

  /** calculateLogP: 0 when no value leaves its interval, negative infinity at the first that does. */
  function LogP(values: seq<real>, lower: seq<real>, upper: seq<real>): Double
    requires |upper| == |lower| <= |values|
  {
    if FirstOutside(values, lower, upper, 0) == |lower| then Finite(0.0) else NegInf
  }

  /** The log density is 0 exactly when every value lies in its closed interval, and negative infinity otherwise. */
  lemma LogPMeaning(values: seq<real>, lower: seq<real>, upper: seq<real>)
    requires |upper| == |lower| <= |values|
    ensures LogP(values, lower, upper) == Finite(0.0) <==>
              forall i :: 0 <= i < |lower| ==> lower[i] <= values[i] <= upper[i]
    ensures LogP(values, lower, upper) != Finite(0.0) ==> LogP(values, lower, upper) == NegInf
  {
    FirstOutsideMeaning(values, lower, upper, 0);
    var k := FirstOutside(values, lower, upper, 0);
    if k < |lower| {
      assert !(lower[k] <= values[k] <= upper[k]);
    } else {
      forall i | 0 <= i < |lower|
        ensures lower[i] <= values[i] <= upper[i]
      {
        assert Within(values, lower, upper, i);
      }
    }
  }

  /** With the bounds built from the ages, the density is 0 exactly when every value is within the error of its age. */
  lemma LogPOfAges(values: seq<real>, ages: seq<real>, error: real)
    requires |ages| <= |values|
    ensures LogP(values, Lower(ages, error), Upper(ages, error)) == Finite(0.0) <==>
              forall i :: 0 <= i < |ages| ==> ages[i] - error <= values[i] <= ages[i] + error
  {
    LogPMeaning(values, Lower(ages, error), Upper(ages, error));
  }

  /** A value moved outside its interval makes the density negative infinity, whatever the others are. */
  lemma OneOutsideRejects(values: seq<real>, lower: seq<real>, upper: seq<real>, i: nat)
    requires |upper| == |lower| <= |values| && i < |lower|
    requires values[i] < lower[i] || values[i] > upper[i]
    ensures LogP(values, lower, upper) == NegInf
  {
    LogPMeaning(values, lower, upper);
  }

  class IncidencePrior {
    var lower: seq<real>
    var upper: seq<real>
    var logP: Double

    ghost predicate Valid()
      reads this
    {
      |lower| == |upper|
    }

    constructor()
      ensures lower == [] && upper == [] && logP == Finite(0.0)
      ensures Valid()
    {
      lower := [];
      upper := [];
      logP := Finite(0.0);
    }

    /** initAndValidate: one interval per age, the age plus and minus the error. */
    method InitAndValidate(ages: seq<real>, error: real)
      modifies this
      ensures Valid()
      ensures lower == Lower(ages, error) && upper == Upper(ages, error) && logP == old(logP)
    {
      var lo: seq<real> := [];
      var hi: seq<real> := [];
      var i := 0;
      while i < |ages|
        invariant 0 <= i <= |ages|
        invariant |lo| == |hi| == i
        invariant forall j :: 0 <= j < i ==> lo[j] == ages[j] - error && hi[j] == ages[j] + error
      {
        lo := lo + [ages[i] - error];
        hi := hi + [ages[i] + error];
        i := i + 1;
      }
      assert lo == Lower(ages, error);
      assert hi == Upper(ages, error);
      lower, upper := lo, hi;
    }

    /** calculateLogP: the loop over the intervals, which stops at the first value outside. */
    method CalculateLogP(values: seq<real>) returns (r: Double)
      requires Valid() && |lower| <= |values|
      modifies this
      ensures lower == old(lower) && upper == old(upper)
      ensures r == logP == LogP(values, lower, upper)
    {
      logP := Finite(0.0);
      var i := 0;
      while i < |lower|
        invariant 0 <= i <= |lower|
        invariant lower == old(lower) && upper == old(upper)
        invariant FirstOutside(values, lower, upper, i) == FirstOutside(values, lower, upper, 0)
        invariant logP == Finite(0.0)
      {
        if values[i] < lower[i] || values[i] > upper[i] {
          logP := NegInf;
          break;
        }
        i := i + 1;
      }
      r := logP;
    }

    /** sample: not supported. */
    method Sample() returns (r: Result<(), PriorError>)
      ensures r == Err(SamplingNotSupported)
    {
      r := Err(SamplingNotSupported);
    }
  }
}
