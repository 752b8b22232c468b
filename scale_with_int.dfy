/**
 * The operator that lets an inner operator change a positive integer from
 * n to m and then scales the non-zero entries of some real vectors by
 * f = m / n and those of others by 1 / f, adding log f once for every
 * entry scaled up and taking it off once for every entry scaled down.
 */
module ScaleWithInt {
  import opened Doubles
  import opened Parameters

  /** A real vector as the operator reads it: its entries and bounds. */
  datatype Vec = Vec(values: seq<real>, lower: real, upper: real)

  /** The vector and bounds of every parameter of a list. */
  ghost function Vecs(ps: seq<RealParameter>): (r: seq<Vec>)
    reads set p | p in ps
    ensures |r| == |ps| && forall q :: 0 <= q < |ps| ==> r[q].values == ps[q].values && r[q].lower == ps[q].lower && r[q].upper == ps[q].upper
  {
    if ps == [] then [] else [Vec(ps[0].values, ps[0].lower, ps[0].upper)] + Vecs(ps[1..])
  }

  /** The new value of an entry: times f, or divided by f for the inverse list. */
  function NewEntry(v: real, f: real, inverse: bool): real
    requires f > 0.0
  {
    if inverse then v / f else v * f
  }

  /** Whether entry i is one that is scaled (it is not 0) and its new value leaves the bounds. */
  predicate Fails(vec: Vec, f: real, inverse: bool, i: nat)
    requires f > 0.0 && i < |vec.values|
  {
    vec.values[i] != 0.0 && (NewEntry(vec.values[i], f, inverse) < vec.lower || NewEntry(vec.values[i], f, inverse) > vec.upper)
  }

  /** The first entry from i on that fails, or the length when none does. */
  function FirstFail(vec: Vec, f: real, inverse: bool, i: nat): (k: nat)
    requires f > 0.0 && i <= |vec.values|
    ensures i <= k <= |vec.values|
    decreases |vec.values| - i
  {
    if i == |vec.values| then i
    else if Fails(vec, f, inverse, i) then i
    else FirstFail(vec, f, inverse, i + 1)
  }

  /** The entries after the first k have been visited: the non-zero ones among the first k scaled, the rest as they were. */
  function Scaled(vec: Vec, f: real, inverse: bool, k: nat): (r: seq<real>)
    requires f > 0.0
  {
    seq(|vec.values|, j requires 0 <= j < |vec.values| =>
      if j < k && vec.values[j] != 0.0 then NewEntry(vec.values[j], f, inverse) else vec.values[j])
  }

  /** Visiting entry k changes at most that entry. */
  lemma ScaledStep(vec: Vec, f: real, inverse: bool, k: nat)
    requires f > 0.0 && k < |vec.values|
    ensures vec.values[k] != 0.0 ==> Scaled(vec, f, inverse, k + 1) == Scaled(vec, f, inverse, k)[k := NewEntry(vec.values[k], f, inverse)]
    ensures vec.values[k] == 0.0 ==> Scaled(vec, f, inverse, k + 1) == Scaled(vec, f, inverse, k)
    ensures Scaled(vec, f, inverse, k)[k] == vec.values[k]
  {
  }

  /** The entries of a vector once the operator has visited it: scaled up to the first that fails. */
  function Visited(vec: Vec, f: real, inverse: bool): seq<real>
    requires f > 0.0
  {
    Scaled(vec, f, inverse, FirstFail(vec, f, inverse, 0))
  }

  /** How many of the first k entries are not 0. */
  function NonZeroCount(values: seq<real>, k: nat): nat
    requires k <= |values|
  {
    if k == 0 then 0 else NonZeroCount(values, k - 1) + (if values[k - 1] != 0.0 then 1 else 0)
  }

  /** Whether every entry of the vector can be scaled without leaving the bounds. */
  predicate VecOk(vec: Vec, f: real, inverse: bool)
    requires f > 0.0
  {
    FirstFail(vec, f, inverse, 0) == |vec.values|
  }

  /** The first vector of the list from t on that fails, or the length when none does. */
  function ListFirstFail(vecs: seq<Vec>, f: real, inverse: bool, t: nat): (p: nat)
    requires f > 0.0 && t <= |vecs|
    ensures t <= p <= |vecs|
    decreases |vecs| - t
  {
    if t == |vecs| then t
    else if !VecOk(vecs[t], f, inverse) then t
    else ListFirstFail(vecs, f, inverse, t + 1)
  }

  /** The number of non-zero entries in the first t vectors. */
  function CountUpTo(vecs: seq<Vec>, t: nat): nat
    requires t <= |vecs|
  {
    if t == 0 then 0 else CountUpTo(vecs, t - 1) + NonZeroCount(vecs[t - 1].values, |vecs[t - 1].values|)
  }

  /** Whether no vector of the list fails. */
  predicate ListOk(vecs: seq<Vec>, f: real, inverse: bool)
    requires f > 0.0
  {
    ListFirstFail(vecs, f, inverse, 0) == |vecs|
  }

  /** The list once the operator has visited it: every vector up to and including the first that fails is visited, the rest are as they were. */
  function AfterList(vecs: seq<Vec>, f: real, inverse: bool): (r: seq<Vec>)
    requires f > 0.0
  {
    var p := ListFirstFail(vecs, f, inverse, 0);
    seq(|vecs|, q requires 0 <= q < |vecs| =>
      Vec(if q <= p then Visited(vecs[q], f, inverse) else vecs[q].values, vecs[q].lower, vecs[q].upper))
  }

  lemma RatioPositive(m: int, n: int)
    requires m > 0 && n > 0
    ensures m as real / n as real > 0.0
  {
  }

  /** The result of a move with the positive factor f: -infinity when an entry of either list would leave its bounds. */
  function ScaledResult(ln: real -> real, innerLogHR: Double, f: real, ups: seq<Vec>, downs: seq<Vec>): Double
    requires f > 0.0
  {
    if !ListOk(ups, f, false) || !ListOk(downs, f, true) then NegInf
    else LogHR(ln, innerLogHR, f, CountUpTo(ups, |ups|) - CountUpTo(downs, |downs|))
  }

  /**
   * The result of a proposal from the integer n, the inner operator's
   * result innerLogHR and new integer m, and the vectors of the two lists.
   */
  function ProposalResult(ln: real -> real, innerLogHR: Double, n: int, m: int, ups: seq<Vec>, downs: seq<Vec>): Double
  {
    if n <= 0 || m <= 0 then NegInf
    else
      RatioPositive(m, n);
      ScaledResult(ln, innerLogHR, m as real / n as real, ups, downs)
  }

  // ---------------------------------------------------------------------
  // What the specification functions mean

  /** Entries before the first failure do not fail, and the first failure, if any, does. */
  lemma {:induction false} FirstFailMeaning(vec: Vec, f: real, inverse: bool, i: nat)
    requires f > 0.0 && i <= |vec.values|
    ensures var k := FirstFail(vec, f, inverse, i);
            && (forall j :: i <= j < k ==> !Fails(vec, f, inverse, j))
            && (k < |vec.values| ==> Fails(vec, f, inverse, k))
    decreases |vec.values| - i
  {
    if i < |vec.values| && !Fails(vec, f, inverse, i) {
      FirstFailMeaning(vec, f, inverse, i + 1);
    }
  }

  /**
   * A vector that passes has every entry that is not 0 moved to its new
   * value, which lies within the bounds, and every 0 entry left at 0;
   * a vector that fails has an entry, not 0, that would leave them, and
   * that entry and all after it are unchanged.
   */
  lemma VisitedMeaning(vec: Vec, f: real, inverse: bool)
    requires f > 0.0
    ensures var r := Visited(vec, f, inverse);
            && |r| == |vec.values|
            && (VecOk(vec, f, inverse) <==> forall j :: 0 <= j < |vec.values| && vec.values[j] != 0.0 ==> vec.lower <= NewEntry(vec.values[j], f, inverse) <= vec.upper)
            && (VecOk(vec, f, inverse) ==> forall j :: 0 <= j < |r| ==> r[j] == if vec.values[j] == 0.0 then 0.0 else NewEntry(vec.values[j], f, inverse))
            && (!VecOk(vec, f, inverse) ==> var k := FirstFail(vec, f, inverse, 0);
                  k < |r| && vec.values[k] != 0.0 && forall j :: k <= j < |r| ==> r[j] == vec.values[j])
  {
    FirstFailMeaning(vec, f, inverse, 0);
    var k := FirstFail(vec, f, inverse, 0);
    if k < |vec.values| {
      assert Fails(vec, f, inverse, k);
    } else {
      forall j | 0 <= j < |vec.values| && vec.values[j] != 0.0
        ensures vec.lower <= NewEntry(vec.values[j], f, inverse) <= vec.upper
      {
        assert !Fails(vec, f, inverse, j);
      }
    }
  }

  /** The list fails exactly at a vector that fails, and every vector before it passes. */
  lemma {:induction false} ListFirstFailMeaning(vecs: seq<Vec>, f: real, inverse: bool, t: nat)
    requires f > 0.0 && t <= |vecs|
    ensures var p := ListFirstFail(vecs, f, inverse, t);
            && (forall q :: t <= q < p ==> VecOk(vecs[q], f, inverse))
            && (p < |vecs| ==> !VecOk(vecs[p], f, inverse))
    decreases |vecs| - t
  {
    if t < |vecs| && VecOk(vecs[t], f, inverse) {
      ListFirstFailMeaning(vecs, f, inverse, t + 1);
    }
  }

  lemma MulNonZero(v: real, f: real)
    requires v != 0.0 && f != 0.0
    ensures v * f != 0.0
  {
  }

  lemma MulDivCancel(v: real, f: real)
    requires f != 0.0
    ensures (v * f) / f == v
  {
  }

  /** Scaling every entry up by f and then every entry down by f gives the vector back, and 0 entries stay 0. */
  lemma DownUndoesUp(vec: Vec, f: real)
    requires f > 0.0
    ensures var up := Scaled(vec, f, false, |vec.values|);
            && (forall j :: 0 <= j < |up| ==> (up[j] == 0.0 <==> vec.values[j] == 0.0))
            && Scaled(Vec(up, vec.lower, vec.upper), f, true, |up|) == vec.values
  {
    var up := Scaled(vec, f, false, |vec.values|);
    forall j | 0 <= j < |up|
      ensures (up[j] == 0.0 <==> vec.values[j] == 0.0) && (up[j] != 0.0 ==> NewEntry(up[j], f, true) == vec.values[j])
    {
      var v := vec.values[j];
      if v != 0.0 {
        MulNonZero(v, f);
        MulDivCancel(v, f);
      }
    }
  }

  /** The up-minus-down count is bounded by the number of entries scaled up. */
  lemma {:induction false} NonZeroCountBound(values: seq<real>, k: nat)
    requires k <= |values|
    ensures NonZeroCount(values, k) <= k
    ensures NonZeroCount(values, k) == k <==> forall j :: 0 <= j < k ==> values[j] != 0.0
  {
    if k > 0 {
      NonZeroCountBound(values, k - 1);
    }
  }

  /** The log Hastings ratio with a positive factor: the inner ratio plus log f for every entry scaled up, minus one for every entry scaled down. */
  function LogHR(ln: real -> real, innerLogHR: Double, f: real, upMinusDown: int): Double
  {
    Add(innerLogHR, Scale(Log(ln, f), upMinusDown as real))
  }

  lemma LogHRFinite(ln: real -> real, innerLogHR: Double, f: real, upMinusDown: int)
    requires f > 0.0
    ensures innerLogHR.Finite? ==> LogHR(ln, innerLogHR, f, upMinusDown) == Finite(innerLogHR.v + ln(f) * upMinusDown as real)
    ensures !innerLogHR.Finite? ==> LogHR(ln, innerLogHR, f, upMinusDown) == innerLogHR
    ensures upMinusDown == 0 ==> LogHR(ln, innerLogHR, f, upMinusDown) == Add(innerLogHR, Finite(0.0))
  {
  }

  /** The parameters of the list hold the given vectors and bounds. */
  ghost predicate Holds(ps: seq<RealParameter>, vecs: seq<Vec>)
    reads set p | p in ps
  {
    |vecs| == |ps| && forall q :: 0 <= q < |ps| ==> ps[q].values == vecs[q].values && ps[q].lower == vecs[q].lower && ps[q].upper == vecs[q].upper
  }

  /**
   * A proposal is rejected with -infinity when n or m is not positive or
   * an entry of either list would leave its bounds; otherwise it returns
   * the inner ratio plus log f times the up-minus-down count, which is
   * finite exactly when the inner ratio is.
   */
  lemma ProposalResultMeaning(ln: real -> real, innerLogHR: Double, n: int, m: int, ups: seq<Vec>, downs: seq<Vec>)
    ensures n <= 0 || m <= 0 ==> ProposalResult(ln, innerLogHR, n, m, ups, downs) == NegInf
    ensures n > 0 && m > 0 ==>
              var f := m as real / n as real;
              && f > 0.0
              && (!ListOk(ups, f, false) || !ListOk(downs, f, true) ==> ProposalResult(ln, innerLogHR, n, m, ups, downs) == NegInf)
              && (ListOk(ups, f, false) && ListOk(downs, f, true) ==>
                    ProposalResult(ln, innerLogHR, n, m, ups, downs) == LogHR(ln, innerLogHR, f, CountUpTo(ups, |ups|) - CountUpTo(downs, |downs|)))
    ensures ProposalResult(ln, innerLogHR, n, m, ups, downs).Finite? <==>
              n > 0 && m > 0 && innerLogHR.Finite? && ListOk(ups, m as real / n as real, false) && ListOk(downs, m as real / n as real, true)
  {
    if n > 0 && m > 0 {
      RatioPositive(m, n);
      var f := m as real / n as real;
      LogHRFinite(ln, innerLogHR, f, CountUpTo(ups, |ups|) - CountUpTo(downs, |downs|));
    }
  }

  // ---------------------------------------------------------------------
  // The operator

  /** The inner loop over the entries of one vector, in place. */
  method ScaleVector(param: RealParameter, f: real, inverse: bool) returns (ok: bool, count: nat)
    requires f > 0.0
    modifies param
    ensures param.lower == old(param.lower) && param.upper == old(param.upper)
    ensures var vec := old(Vec(param.values, param.lower, param.upper));
            && (ok <==> VecOk(vec, f, inverse))
            && param.values == Visited(vec, f, inverse)
            && (ok ==> count == NonZeroCount(vec.values, |vec.values|))
  {
    ghost var vec := Vec(param.values, param.lower, param.upper);
    count := 0;
    var i := 0;
    while i < |param.values|
      invariant 0 <= i <= |vec.values| == |param.values|
      invariant param.lower == vec.lower && param.upper == vec.upper
      invariant param.values == Scaled(vec, f, inverse, i)
      invariant FirstFail(vec, f, inverse, i) == FirstFail(vec, f, inverse, 0)
      invariant count == NonZeroCount(vec.values, i)
    {
      ScaledStep(vec, f, inverse, i);
      var v := param.values[i];
      if v != 0.0 {
        var newValue := NewEntry(v, f, inverse);
        if newValue < param.lower || newValue > param.upper {
          assert Fails(vec, f, inverse, i);
          return false, count;
        }
        param.SetValue(i, newValue);
        count := count + 1;
      }
      i := i + 1;
    }
    ok := true;
  }

  /**
   * The outer loop over a list of vectors: each is visited in turn until
   * one fails. Vectors before the failing one are fully scaled, the failing
   * one up to its failing entry, the rest are untouched.
   */
  method ScaleList(ps: seq<RealParameter>, ghost vecs: seq<Vec>, f: real, inverse: bool) returns (ok: bool, count: nat)
    requires f > 0.0 && Distinct(ps) && Holds(ps, vecs)
    modifies set p | p in ps
    ensures ok <==> ListOk(vecs, f, inverse)
    ensures forall q :: 0 <= q < |ps| ==> ps[q].lower == vecs[q].lower && ps[q].upper == vecs[q].upper
    ensures forall q :: 0 <= q < |ps| ==> ps[q].values == if q <= ListFirstFail(vecs, f, inverse, 0) then Visited(vecs[q], f, inverse) else vecs[q].values
    ensures ok ==> count == CountUpTo(vecs, |ps|)
  {
    count := 0;
    var t := 0;
    while t < |ps|
      invariant 0 <= t <= |ps|
      invariant ListFirstFail(vecs, f, inverse, t) == ListFirstFail(vecs, f, inverse, 0)
      invariant forall q :: 0 <= q < |ps| ==> ps[q].lower == vecs[q].lower && ps[q].upper == vecs[q].upper
      invariant forall q :: 0 <= q < t ==> ps[q].values == Visited(vecs[q], f, inverse)
      invariant forall q :: t <= q < |ps| ==> ps[q].values == vecs[q].values
      invariant count == CountUpTo(vecs, t)
    {
      forall q | 0 <= q < |ps| && q != t
        ensures ps[q] != ps[t]
      {
        DistinctAt(ps, q, t);
      }
      var okOne, countOne := ScaleVector(ps[t], f, inverse);
      if !okOne {
        return false, count;
      }
      count := count + countOne;
      t := t + 1;
    }
    ok := true;
  }

  class ScaleWithInt {
    var integerParameter: IntegerParameter
    var realParameters: seq<RealParameter>
    var realParametersInverse: seq<RealParameter>

    /** initAndValidate: the parameters the operator works on. */
    constructor(integerParameter0: IntegerParameter, realParameters0: seq<RealParameter>, realParametersInverse0: seq<RealParameter>)
      ensures integerParameter == integerParameter0
      ensures realParameters == realParameters0 && realParametersInverse == realParametersInverse0
    {
      integerParameter := integerParameter0;
      realParameters := realParameters0;
      realParametersInverse := realParametersInverse0;
    }

    /**
     * proposal. The inner operator is represented by its result innerLogHR
     * and the integer m it leaves behind. With n <= 0 nothing changes;
     * with m <= 0 only the integer has changed; otherwise the lists are
     * visited in turn, and the first entry that would leave its bounds
     * ends the move with -infinity.
     */
    method Proposal(ln: real -> real, innerLogHR: Double, m: int) returns (r: Double)
      requires Distinct(realParameters + realParametersInverse)
      modifies integerParameter, set p | p in realParameters, set p | p in realParametersInverse
      ensures integerParameter.lower == old(integerParameter.lower) && integerParameter.upper == old(integerParameter.upper)
      ensures integerParameter.value == if old(integerParameter.value) <= 0 then old(integerParameter.value) else m
      ensures var n := old(integerParameter.value);
              var ups := old(Vecs(realParameters));
              var downs := old(Vecs(realParametersInverse));
              && r == ProposalResult(ln, innerLogHR, n, m, ups, downs)
              && (n <= 0 || m <= 0 ==> Holds(realParameters, ups) && Holds(realParametersInverse, downs))
              && (n > 0 && m > 0 ==>
                    var f := m as real / n as real;
                    && Holds(realParameters, AfterList(ups, f, false))
                    && Holds(realParametersInverse, if ListOk(ups, f, false) then AfterList(downs, f, true) else downs))
    {
      ghost var ups := Vecs(realParameters);
      ghost var downs := Vecs(realParametersInverse);
      var n := integerParameter.value;
      if n <= 0 {
        return NegInf;
      }
      integerParameter.SetValue(m);
      if m <= 0 {
        return NegInf;
      }
      var f := m as real / n as real;
      RatioPositive(m, n);
      r := Rescale(ln, innerLogHR, f, ups, downs);
    }

    /** The move once the factor f = m / n is known to be positive: scale the lists and add the log factor. */
    method Rescale(ln: real -> real, innerLogHR: Double, f: real, ghost ups: seq<Vec>, ghost downs: seq<Vec>) returns (r: Double)
      requires f > 0.0 && Distinct(realParameters + realParametersInverse)
      requires Holds(realParameters, ups) && Holds(realParametersInverse, downs)
      modifies set p | p in realParameters, set p | p in realParametersInverse
      ensures r == ScaledResult(ln, innerLogHR, f, ups, downs)
      ensures Holds(realParameters, AfterList(ups, f, false))
      ensures Holds(realParametersInverse, if ListOk(ups, f, false) then AfterList(downs, f, true) else downs)
    {
      var ok, upMinusDown := ScaleLists(f, ups, downs);
      if !ok {
        return NegInf;
      }
      r := Add(innerLogHR, Scale(Log(ln, f), upMinusDown as real));
    }

    /** The two loops over the lists: scaled up by f, then, if that passed, scaled down. */
    method ScaleLists(f: real, ghost ups: seq<Vec>, ghost downs: seq<Vec>) returns (ok: bool, upMinusDown: int)
      requires f > 0.0 && Distinct(realParameters + realParametersInverse)
      requires Holds(realParameters, ups) && Holds(realParametersInverse, downs)
      modifies set p | p in realParameters, set p | p in realParametersInverse
      ensures ok <==> ListOk(ups, f, false) && ListOk(downs, f, true)
      ensures ok ==> upMinusDown == CountUpTo(ups, |ups|) - CountUpTo(downs, |downs|)
      ensures Holds(realParameters, AfterList(ups, f, false))
      ensures Holds(realParametersInverse, if ListOk(ups, f, false) then AfterList(downs, f, true) else downs)
    {
      DistinctAppend(realParameters, realParametersInverse);
      var okUp, up := ScaleList(realParameters, ups, f, false);
      assert Holds(realParameters, AfterList(ups, f, false));
      assert Holds(realParametersInverse, downs);
      if !okUp {
        return false, 0;
      }
      var okDown, down := ScaleList(realParametersInverse, downs, f, true);
      assert Holds(realParametersInverse, AfterList(downs, f, true));
      if !okDown {
        return false, 0;
      }
      ok, upMinusDown := true, up as int - down as int;
    }
  }
}
