/**
 * The two kinds of state node the operators change: a vector of reals
 * and a scalar integer, each with the bounds a proposal must respect.
 * BEAST's own parameter classes are not part of this model; only the
 * accessors the operators call are, with their plain meaning.
 */
module Parameters {

  class RealParameter {
    var values: seq<real>
    var lower: real
    var upper: real

    constructor(values0: seq<real>, lower0: real, upper0: real)
      ensures values == values0 && lower == lower0 && upper == upper0
    {
      values := values0;
      lower := lower0;
      upper := upper0;
    }

    /** scale(q): every entry is multiplied by q; the bounds check of the library method is not modelled. */
    method Scale(q: real)
      modifies this
      ensures values == ScaledBy(old(values), q)
      ensures lower == old(lower) && upper == old(upper)
    {
      values := ScaledBy(values, q);
    }

    /** setValue(i, v): entry i becomes v; nothing else changes. */
    method SetValue(i: nat, v: real)
      requires i < |values|
      modifies this
      ensures values == old(values)[i := v]
      ensures lower == old(lower) && upper == old(upper)
    {
      values := values[i := v];
    }
  }

  class IntegerParameter {
    var value: int
    var lower: int
    var upper: int

    constructor(value0: int, lower0: int, upper0: int)
      ensures value == value0 && lower == lower0 && upper == upper0
    {
      value := value0;
      lower := lower0;
      upper := upper0;
    }

    /** setValue(v). */
    method SetValue(v: int)
      modifies this
      ensures value == v && lower == old(lower) && upper == old(upper)
    {
      value := v;
    }
  }

  /** Every entry multiplied by q. */
  function ScaledBy(values: seq<real>, q: real): (r: seq<real>)
    ensures |r| == |values| && forall i :: 0 <= i < |values| ==> r[i] == values[i] * q
  {
    if values == [] then [] else [values[0] * q] + ScaledBy(values[1..], q)
  }

  /** No parameter is listed twice. */
  predicate Distinct(ps: seq<RealParameter>)
  {
    ps == [] || (ps[0] !in ps[1..] && Distinct(ps[1..]))
  }

  /** Two different positions of a list without repeats hold different parameters. */
  lemma {:induction false} DistinctAt(ps: seq<RealParameter>, i: nat, j: nat)
    requires Distinct(ps) && i < |ps| && j < |ps| && i != j
    ensures ps[i] != ps[j]
  {
    if i == 0 {
      assert ps[j] == ps[1..][j - 1];
    } else if j == 0 {
      assert ps[i] == ps[1..][i - 1];
    } else {
      DistinctAt(ps[1..], i - 1, j - 1);
    }
  }

  /** A list without repeats made of two parts: each part is without repeats, and no parameter is in both. */
  lemma {:induction false} DistinctAppend(ps: seq<RealParameter>, qs: seq<RealParameter>)
    requires Distinct(ps + qs)
    ensures Distinct(ps) && Distinct(qs)
    ensures forall i, j :: 0 <= i < |ps| && 0 <= j < |qs| ==> ps[i] != qs[j]
  {
    if ps == [] {
      assert ps + qs == qs;
    } else {
      assert (ps + qs)[1..] == ps[1..] + qs;
      DistinctAppend(ps[1..], qs);
      assert ps[1..] == (ps + qs)[1..][..|ps| - 1];
      forall j | 0 <= j < |qs|
        ensures ps[0] != qs[j]
      {
        assert qs[j] == (ps + qs)[1..][|ps| - 1 + j];
      }
      forall i, j | 0 <= i < |ps| && 0 <= j < |qs|
        ensures ps[i] != qs[j]
      {
        if i > 0 {
          assert ps[i] == ps[1..][i - 1];
        }
      }
    }
  }

  /** The values of every parameter of a list. */
  ghost function ValuesOf(ps: seq<RealParameter>): (r: seq<seq<real>>)
    reads set p | p in ps
    ensures |r| == |ps| && forall i :: 0 <= i < |ps| ==> r[i] == ps[i].values
  {
    if ps == [] then [] else [ps[0].values] + ValuesOf(ps[1..])
  }

  /** The sum of a sequence of reals, from the left. */
  function Sum(s: seq<real>): real
  {
    if s == [] then 0.0 else Sum(s[..|s| - 1]) + s[|s| - 1]
  }
}
