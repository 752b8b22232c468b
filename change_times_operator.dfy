/**
 * The operator on a vector of change times that scales one entry by a
 * random factor and rejects any result that would break the order of
 * the vector or leave its bounds.
 */
module ChangeTimesOperator {
  import opened Doubles
  import opened Parameters
  import opened RealFacts

  /** Math.min(s, 1/s). */
  function MinFactor(scaleFactor: real): real
    requires scaleFactor > 0.0
  {
    if scaleFactor <= 1.0 / scaleFactor then scaleFactor else 1.0 / scaleFactor
  }

  /** The scale factor drawn from the uniform draw u: minf + (1/minf - minf) u. */
  function Factor(minf: real, u: real): real
    requires minf > 0.0
  {
    minf + (1.0 / minf - minf) * u
  }

  /** A positive number and its reciprocal lie on opposite sides of 1. */
  lemma Reciprocal(s: real)
    requires s > 0.0
    ensures 1.0 / s > 0.0
    ensures s <= 1.0 ==> 1.0 / s >= 1.0
    ensures s >= 1.0 ==> 1.0 / s <= 1.0
  {
    var r := 1.0 / s;
    assert r * s == 1.0;
    if s <= 1.0 {
      assert r * (1.0 - s) >= 0.0;
    }
    if s >= 1.0 {
      assert r * (s - 1.0) >= 0.0;
    }
  }

  /** minf is in (0, 1] and its reciprocal at least 1. */
  lemma MinFactorRange(scaleFactor: real)
    requires scaleFactor > 0.0
    ensures 0.0 < MinFactor(scaleFactor) <= 1.0 <= 1.0 / MinFactor(scaleFactor)
  {
    Reciprocal(scaleFactor);
    Reciprocal(MinFactor(scaleFactor));
  }

  /** With u in [0, 1), the factor lies in [minf, 1/minf), an interval around 1 of positive numbers. */
  lemma FactorRange(scaleFactor: real, u: real)
    requires scaleFactor > 0.0 && 0.0 <= u < 1.0
    ensures var minf := MinFactor(scaleFactor);
            && 0.0 < minf <= 1.0 <= 1.0 / minf
            && minf <= Factor(minf, u)
            && (minf < 1.0 ==> Factor(minf, u) < 1.0 / minf)
            && (minf == 1.0 ==> Factor(minf, u) == 1.0)
  {
    var minf := MinFactor(scaleFactor);
    MinFactorRange(scaleFactor);
    AboveBottom(minf, 1.0 / minf, u);
    if minf < 1.0 {
      BelowTop(minf, 1.0 / minf, u);
    }
  }

  /** Whether the new value of entry i leaves the bounds or passes a neighbour. */
  predicate Rejects(values: seq<real>, lower: real, upper: real, i: nat, newValue: real)
    requires i < |values|
  {
    || newValue < lower
    || newValue > upper
    || (i > 0 && newValue < values[i - 1])
    || (i < |values| - 1 && newValue > values[i + 1])
  }

  predicate Sorted(values: seq<real>)
  {
    forall j, k :: 0 <= j < k < |values| ==> values[j] <= values[k]
  }

  predicate InBounds(values: seq<real>, lower: real, upper: real)
  {
    forall j :: 0 <= j < |values| ==> lower <= values[j] <= upper
  }

  /** An accepted move keeps a sorted vector sorted and a vector within its bounds within them. */
  lemma AcceptKeepsOrder(values: seq<real>, lower: real, upper: real, i: nat, newValue: real)
    requires i < |values| && !Rejects(values, lower, upper, i, newValue)
    ensures Sorted(values) ==> Sorted(values[i := newValue])
    ensures InBounds(values, lower, upper) ==> InBounds(values[i := newValue], lower, upper)
  {
    if Sorted(values) {
      var w := values[i := newValue];
      forall j, k | 0 <= j < k < |w|
        ensures w[j] <= w[k]
      {
        if k == i {
          assert values[j] <= values[i - 1];
        } else if j == i {
          assert values[i + 1] <= values[k];
        }
      }
    }
  }

  /** The log Hastings ratio of an accepted move: -log f, finite because f is positive. */
  lemma HastingsRatio(ln: real -> real, scaleFactor: real, u: real)
    requires scaleFactor > 0.0 && 0.0 <= u < 1.0
    ensures var f := Factor(MinFactor(scaleFactor), u);
            Neg(Log(ln, f)) == Finite(-ln(f))
  {
    FactorRange(scaleFactor, u);
  }

  class ChangeTimesOperator {
    var changeTimes: RealParameter
    var scaleFactor: real

    constructor(changeTimes0: RealParameter, scaleFactor0: real)
      ensures changeTimes == changeTimes0 && scaleFactor == scaleFactor0
    {
      changeTimes := changeTimes0;
      scaleFactor := scaleFactor0;
    }

    /**
     * proposal, with the uniform draw u and the chosen index i: scale entry
     * i by the factor; a rejected move returns -infinity and changes
     * nothing, an accepted one changes only entry i and returns -log f.
     */
    method Proposal(ln: real -> real, u: real, i: nat) returns (r: Double)
      requires scaleFactor > 0.0 && 0.0 <= u < 1.0 && i < |changeTimes.values|
      modifies changeTimes
      ensures changeTimes.lower == old(changeTimes.lower) && changeTimes.upper == old(changeTimes.upper)
      ensures var f := Factor(MinFactor(scaleFactor), u);
              var newValue := f * old(changeTimes.values[i]);
              if Rejects(old(changeTimes.values), changeTimes.lower, changeTimes.upper, i, newValue)
              then r == NegInf && changeTimes.values == old(changeTimes.values)
              else r == Finite(-ln(f)) && changeTimes.values == old(changeTimes.values)[i := newValue]
    {
      var minf := MinFactor(scaleFactor);
      var f := Factor(minf, u);
      var newValue := f * changeTimes.values[i];
      if newValue < changeTimes.lower
         || newValue > changeTimes.upper
         || (i > 0 && newValue < changeTimes.values[i - 1])
         || (i < |changeTimes.values| - 1 && newValue > changeTimes.values[i + 1])
      {
        return NegInf;
      }
      changeTimes.SetValue(i, newValue);
      HastingsRatio(ln, scaleFactor, u);
      r := Neg(Log(ln, f));
    }
  }
}
