/**
 * The operator that moves a scalar integer by a uniform step within a
 * window and rescales a real parameter by the ratio of the old integer to
 * the new one.
 */
module IntRealUpDown {
  import opened Doubles
  import opened Parameters

  /** The proposed integer: the current value moved by draw - windowSize, for a draw in [0, 2 windowSize]. */
  function NewValue(value: int, windowSize: int, draw: int): int
  {
    value + draw - windowSize
  }

  /** The proposed integer lies within the window around the current one, and the draw 2w - d undoes the draw d. */
  lemma NewValueWithinWindow(value: int, windowSize: int, draw: int)
    requires 0 <= draw <= 2 * windowSize
    ensures value - windowSize <= NewValue(value, windowSize, draw) <= value + windowSize
    ensures 0 <= 2 * windowSize - draw <= 2 * windowSize
    ensures NewValue(NewValue(value, windowSize, draw), windowSize, 2 * windowSize - draw) == value
  {
  }

  /** The factor applied to the real parameter: old / new as a double, infinite or NaN when the new value is 0. */
  function Factor(oldValue: int, newValue: int): (r: Double)
    ensures newValue != 0 ==> r == Finite((oldValue as real) / (newValue as real))
    ensures newValue == 0 ==> !r.Finite?
  {
    Div(oldValue as real, newValue as real)
  }

  lemma RatioProduct(a: real, b: real)
    requires a != 0.0 && b != 0.0
    ensures (a / b) * (b / a) == 1.0
  {
  }

  lemma TimesInverses(x: real, p: real, q: real)
    requires p * q == 1.0
    ensures x * p * q == x
  {
  }

  /**
   * Moving from n to m and back again restores the real parameter: scaling
   * by n/m and then by m/n is the identity when neither is 0.
   */
  lemma ScaleThereAndBack(values: seq<real>, n: int, m: int)
    requires n != 0 && m != 0
    ensures Factor(n, m).Finite? && Factor(m, n).Finite?
    ensures ScaledBy(ScaledBy(values, Factor(n, m).v), Factor(m, n).v) == values
  {
    var there := ScaledBy(values, Factor(n, m).v);
    var back := ScaledBy(there, Factor(m, n).v);
    forall i | 0 <= i < |values|
      ensures back[i] == values[i]
    {
      RatioProduct(n as real, m as real);
      TimesInverses(values[i], Factor(n, m).v, Factor(m, n).v);
    }
  }

  class IntRealUpDown {
    var intParam: IntegerParameter
    var realParam: RealParameter
    var windowSize: int

    /** initAndValidate: the two parameters and the window size from the inputs. */
    constructor(intParam0: IntegerParameter, realParam0: RealParameter, windowSize0: int)
      ensures intParam == intParam0 && realParam == realParam0 && windowSize == windowSize0
    {
      intParam := intParam0;
      realParam := realParam0;
      windowSize := windowSize0;
    }

    /**
     * proposal, with the draw in [0, 2 windowSize]: an integer outside its
     * bounds returns -infinity and changes nothing; otherwise the real
     * parameter is scaled by old / new, the integer becomes the new value
     * and the result is 0. A new value of 0 is not guarded in the source;
     * there the factor is not finite and the model leaves the reals alone.
     */
    method Proposal(draw: int) returns (r: Double)
      requires windowSize >= 0 && 0 <= draw <= 2 * windowSize
      modifies intParam, realParam
      ensures intParam.lower == old(intParam.lower) && intParam.upper == old(intParam.upper)
      ensures realParam.lower == old(realParam.lower) && realParam.upper == old(realParam.upper)
      ensures var newValue := NewValue(old(intParam.value), windowSize, draw);
              var f := Factor(old(intParam.value), newValue);
              if newValue < intParam.lower || newValue > intParam.upper
              then r == NegInf && intParam.value == old(intParam.value) && realParam.values == old(realParam.values)
              else && r == Finite(0.0)
                   && intParam.value == newValue
                   && (f.Finite? ==> realParam.values == ScaledBy(old(realParam.values), f.v))
                   && (!f.Finite? ==> realParam.values == old(realParam.values))
    {
      var newValue := intParam.value + draw - windowSize;
      if newValue < intParam.lower || newValue > intParam.upper {
        return NegInf;
      }
      var f := Div(intParam.value as real, newValue as real);
      if f.Finite? {
        realParam.Scale(f.v);
      }
      intParam.SetValue(newValue);
      r := Finite(0.0);
    }
  }
}
