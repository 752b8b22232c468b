/**
 * The parameter holding one sample time per incidence age: each age,
 * jittered uniformly within half the error on either side when the
 * error is positive, and never below 0.
 */
module IncidenceParameter {

  /** Math.max(t, 0.0) on finite values. */
  function AtLeastZero(t: real): (r: real)
    ensures r >= 0.0 && r >= t && (r == t || r == 0.0)
  {
    if t > 0.0 then t else 0.0
  }

  /** The starting value for `age`, with the uniform draw `u` used only when the error is positive. */
  function Jittered(age: real, error: real, u: real): real
  {
    AtLeastZero(if error > 0.0 then age + u * error - 0.5 * error else age)
  }

  /** The starting values, one per age and in the order of the ages, with one draw per age. */
  function Values(ages: seq<real>, error: real, draws: seq<real>): (r: seq<real>)
    requires |draws| == |ages|
    ensures |r| == |ages|
    ensures forall i :: 0 <= i < |ages| ==> r[i] == Jittered(ages[i], error, draws[i])
  {
    if ages == [] then []
    else [Jittered(ages[0], error, draws[0])] + Values(ages[1..], error, draws[1..])
  }

  /**
   * Every value is at least 0. Without a positive error it is the age
   * clamped at 0; with one, and a draw in [0, 1), it lies in
   * [age - error/2, age + error/2) before the clamp.
   */
  lemma JitteredMeaning(age: real, error: real, u: real)
    requires 0.0 <= u < 1.0
    ensures Jittered(age, error, u) >= 0.0
    ensures error <= 0.0 ==> Jittered(age, error, u) == AtLeastZero(age)
    ensures error > 0.0 ==> Jittered(age, error, u) >= age - error / 2.0
    ensures error > 0.0 ==> Jittered(age, error, u) == 0.0 || Jittered(age, error, u) < age + error / 2.0
  {
    if error > 0.0 {
      var t := age + u * error - 0.5 * error;
      assert u * error < error by {
        assert (1.0 - u) * error > 0.0;
      }
      assert age - error / 2.0 <= t < age + error / 2.0;
    }
  }

  /** The values of a whole data set: one per age, each non-negative and within half the error of its age, or the age clamped at 0. */
  lemma ValuesMeaning(ages: seq<real>, error: real, draws: seq<real>)
    requires |draws| == |ages| && forall i :: 0 <= i < |draws| ==> 0.0 <= draws[i] < 1.0
    ensures var v := Values(ages, error, draws);
            && |v| == |ages|
            && (forall i :: 0 <= i < |v| ==> v[i] >= 0.0)
            && (error <= 0.0 ==> forall i :: 0 <= i < |v| ==> v[i] == AtLeastZero(ages[i]))
            && (error > 0.0 ==> forall i :: 0 <= i < |v| ==>
                  ages[i] - error / 2.0 <= v[i] && (v[i] == 0.0 || v[i] < ages[i] + error / 2.0))
  {
    forall i | 0 <= i < |ages|
      ensures var v := Jittered(ages[i], error, draws[i]);
              && v >= 0.0
              && (error <= 0.0 ==> v == AtLeastZero(ages[i]))
              && (error > 0.0 ==> ages[i] - error / 2.0 <= v && (v == 0.0 || v < ages[i] + error / 2.0))
    {
      JitteredMeaning(ages[i], error, draws[i]);
    }
  }

  class IncidenceParameter {
    var dimension: int
    var values: seq<real>

    constructor()
      ensures dimension == 1 && values == []
    {
      dimension := 1;
      values := [];
    }

    /** initAndValidate: the dimension is the number of ages and the values are built in their order. */
    method InitAndValidate(ages: seq<real>, error: real, draws: seq<real>)
      requires |draws| == |ages|
      modifies this
      ensures dimension == |ages| && values == Values(ages, error, draws)
    {
      dimension := |ages|;
      var built: seq<real> := [];
      var i := 0;
      while i < |ages|
        invariant 0 <= i <= |ages|
        invariant |built| == i
        invariant forall j :: 0 <= j < i ==> built[j] == Jittered(ages[j], error, draws[j])
      {
        var t := ages[i];
        if error > 0.0 {
          t := t + draws[i] * error - 0.5 * error;
        }
        t := AtLeastZero(t);
        built := built + [t];
        i := i + 1;
      }
      assert built == Values(ages, error, draws);
      values := built;
    }
  }
}
