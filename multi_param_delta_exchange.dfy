/**
 * The operator that moves an amount delta from one of several scalar
 * parameters to another, so that the sum of their values stays the same.
 * Each parameter contributes its first value (getValue()).
 */
module MultiParamDeltaExchange {
  import opened Wrappers
  import opened Doubles
  import opened Parameters
  import opened RealFacts

  /** IllegalArgumentException, thrown by initAndValidate. */
  datatype DeltaExchangeError = TooFewParameters

  /** Every parameter has a first value. */
  predicate NonEmpty(ps: seq<RealParameter>)
    reads set p | p in ps
  {
    forall k :: 0 <= k < |ps| ==> |ps[k].values| >= 1
  }

  /** The first value of every parameter, in list order. */
  function FirstValues(ps: seq<RealParameter>): (r: seq<real>)
    requires NonEmpty(ps)
    reads set p | p in ps
    ensures |r| == |ps| && forall k :: 0 <= k < |ps| ==> r[k] == ps[k].values[0]
  {
    if ps == [] then [] else FirstValues(ps[..|ps| - 1]) + [ps[|ps| - 1].values[0]]
  }

  // ---------------------------------------------------------------------
  // Choosing the second parameter from a draw in [0, n - 1)

  /** The second index as the operator computes it: the draw, moved up by one only when it hits the first index. */
  function SecondIndexAsWritten(p1: nat, draw: nat): nat
  {
    if draw == p1 then draw + 1 else draw
  }

  /** The second index as intended: the draws map one to one onto the indices other than the first. */
  function SecondIndex(p1: nat, draw: nat): nat
  {
    if draw >= p1 then draw + 1 else draw
  }

  /** The draw that yields index j under SecondIndex. */
  function DrawFor(p1: nat, j: nat): nat
    requires j != p1
  {
    if j < p1 then j else j - 1
  }

  /**
   * As written, when the first index is below n - 2 the last index can
   * never be the second one, and index p1 + 1 is reached by two draws.
   */
  lemma AsWrittenSkipsLast(n: nat, p1: nat)
    requires p1 + 2 < n
    ensures forall draw: nat :: draw < n - 1 ==> SecondIndexAsWritten(p1, draw) != n - 1
    ensures SecondIndexAsWritten(p1, p1) == SecondIndexAsWritten(p1, p1 + 1) == p1 + 1
  {
  }

  /** As written, the second index is still a valid index other than the first. */
  lemma AsWrittenInRange(n: nat, p1: nat)
    requires p1 < n
    ensures forall draw: nat :: draw < n - 1 ==> SecondIndexAsWritten(p1, draw) < n && SecondIndexAsWritten(p1, draw) != p1
  {
  }

  /** n = 3, first index 0: both draws give index 1, and index 2 is never chosen. */
  lemma AsWrittenThreeParameters()
    ensures SecondIndexAsWritten(0, 0) == 1 && SecondIndexAsWritten(0, 1) == 1
  {
  }

  /**
   * The corrected choice is a bijection from the n - 1 draws onto the
   * indices other than the first: in range, never the first, strictly
   * increasing in the draw, and DrawFor is its inverse.
   */
  lemma SecondIndexMeaning(n: nat, p1: nat)
    requires p1 < n
    ensures forall draw: nat :: draw < n - 1 ==> SecondIndex(p1, draw) < n && SecondIndex(p1, draw) != p1
    ensures forall d: nat, e: nat :: d < e < n - 1 ==> SecondIndex(p1, d) < SecondIndex(p1, e)
    ensures forall j: nat :: j < n && j != p1 ==> DrawFor(p1, j) < n - 1 && SecondIndex(p1, DrawFor(p1, j)) == j
    ensures forall draw: nat :: draw < n - 1 ==> DrawFor(p1, SecondIndex(p1, draw)) == draw
  {
  }

  // ---------------------------------------------------------------------
  // What an accepted move does to the sum

  /** Replacing one entry changes the sum by the difference. */
  lemma {:induction false} SumUpdate(v: seq<real>, i: nat, x: real)
    requires i < |v|
    ensures Sum(v[i := x]) == Sum(v) - v[i] + x
  {
    var w := v[i := x];
    var last := |v| - 1;
    assert w[..last] == if i == last then v[..last] else v[..last][i := x];
    if i < last {
      SumUpdate(v[..last], i, x);
    }
  }

  /** Adding delta to one entry and taking it from another leaves the sum unchanged. */
  lemma ExchangeKeepsSum(v: seq<real>, a: nat, b: nat, delta: real)
    requires a < |v| && b < |v| && a != b
    ensures Sum(v[a := v[a] + delta][b := v[b] - delta]) == Sum(v)
  {
    SumUpdate(v, a, v[a] + delta);
    SumUpdate(v[a := v[a] + delta], b, v[b] - delta);
  }

  /** The amount moved: a fraction u of the window sum * relWindowSize. */
  function Delta(sum: real, relWindowSize: real, u: real): real
  {
    sum * relWindowSize * u
  }

  /** For u in [0, 1) the amount moved lies between 0 and a non-negative window. */
  lemma DeltaRange(sum: real, relWindowSize: real, u: real)
    requires sum * relWindowSize >= 0.0 && 0.0 <= u < 1.0
    ensures 0.0 <= Delta(sum, relWindowSize, u) <= sum * relWindowSize
  {
    var window := sum * relWindowSize;
    FractionOf(window, u);
    assert Delta(sum, relWindowSize, u) == window * u;
  }

  class MultiParamDeltaExchange {
    var params: seq<RealParameter>
    var relWindowSize: real

    constructor()
      ensures params == [] && relWindowSize == 0.1
    {
      params := [];
      relWindowSize := 0.1;
    }

    /** initAndValidate: take the parameters, failing with fewer than two; then take the window size. */
    method InitAndValidate(paramsIn: seq<RealParameter>, relWindowSizeIn: real) returns (r: Result<(), DeltaExchangeError>)
      modifies this
      ensures params == paramsIn
      ensures |paramsIn| < 2 ==> r == Err(TooFewParameters) && relWindowSize == old(relWindowSize)
      ensures |paramsIn| >= 2 ==> r == Ok(()) && relWindowSize == relWindowSizeIn
    {
      params := paramsIn;
      if |params| < 2 {
        return Err(TooFewParameters);
      }
      relWindowSize := relWindowSizeIn;
      r := Ok(());
    }

    /** The summing loop: the sum of the first values of all parameters. */
    method SumOfValues() returns (sum: real)
      requires NonEmpty(params)
      ensures sum == Sum(old(FirstValues(params)))
    {
      ghost var vs := FirstValues(params);
      sum := 0.0;
      var i := 0;
      while i < |params|
        invariant 0 <= i <= |params|
        invariant sum == Sum(vs[..i])
      {
        assert vs[..i + 1][..i] == vs[..i];
        sum := sum + params[i].values[0];
        i := i + 1;
      }
      assert vs[..i] == vs;
    }

    /**
     * proposal, with the draws d1 in [0, n), d2 in [0, n - 1) and u in
     * [0, 1): move delta = sum * relWindowSize * u from the second chosen
     * parameter to the first. A move that takes the first above its upper
     * bound or the second below its lower bound returns -infinity and
     * changes nothing; otherwise the two values change, nothing else does,
     * and the result is 0.
     */
    method Proposal(d1: nat, d2: nat, u: real) returns (r: Double)
      requires |params| >= 2 && Distinct(params) && d1 < |params| && d2 < |params| - 1 && 0.0 <= u < 1.0
      requires NonEmpty(params)
      modifies set p | p in params
      ensures forall k :: 0 <= k < |params| ==> |params[k].values| == |old(params[k].values)| && params[k].lower == old(params[k].lower) && params[k].upper == old(params[k].upper)
      ensures var p2 := SecondIndexAsWritten(d1, d2);
              var delta := Delta(Sum(old(FirstValues(params))), relWindowSize, u);
              var newP1 := old(params[d1].values[0]) + delta;
              var newP2 := old(params[p2].values[0]) - delta;
              if newP1 > params[d1].upper || newP2 < params[p2].lower
              then r == NegInf && forall k :: 0 <= k < |params| ==> params[k].values == old(params[k].values)
              else && r == Finite(0.0)
                   && params[d1].values == old(params[d1].values)[0 := newP1]
                   && params[p2].values == old(params[p2].values)[0 := newP2]
                   && forall k :: 0 <= k < |params| && k != d1 && k != p2 ==> params[k].values == old(params[k].values)
    {
      var sum := SumOfValues();
      var p1 := d1;
      var p2 := if d2 == p1 then d2 + 1 else d2;
      assert p2 == SecondIndexAsWritten(d1, d2) && p2 < |params| && p2 != p1;
      var delta := Delta(sum, relWindowSize, u);
      var newP1 := params[p1].values[0] + delta;
      var newP2 := params[p2].values[0] - delta;
      if newP1 > params[p1].upper || newP2 < params[p2].lower {
        return NegInf;
      }
      Exchange(p1, p2, newP1, newP2);
      r := Finite(0.0);
    }

    /** The two setValue calls of an accepted move. */
    method Exchange(p1: nat, p2: nat, newP1: real, newP2: real)
      requires Distinct(params) && p1 < |params| && p2 < |params| && p1 != p2
      requires NonEmpty(params)
      modifies params[p1], params[p2]
      ensures params[p1].values == old(params[p1].values)[0 := newP1]
      ensures params[p2].values == old(params[p2].values)[0 := newP2]
      ensures forall k :: 0 <= k < |params| && k != p1 && k != p2 ==> params[k].values == old(params[k].values)
      ensures forall k :: 0 <= k < |params| ==> |params[k].values| == |old(params[k].values)| && params[k].lower == old(params[k].lower) && params[k].upper == old(params[k].upper)
    {
      forall k | 0 <= k < |params| && k != p1 && k != p2
        ensures params[k] != params[p1] && params[k] != params[p2]
      {
        DistinctAt(params, k, p1);
        DistinctAt(params, k, p2);
      }
      DistinctAt(params, p1, p2);
      params[p1].SetValue(0, newP1);
      params[p2].SetValue(0, newP2);
    }
  }
}
