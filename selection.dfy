/**
 * Choosing among weighted alternatives by cumulative subtraction, as the
 * particle filters do for the next reaction and for resampling: a uniform
 * draw u in [0, total) is reduced by the weights in turn, and the
 * alternative whose weight exceeds what is left of u is chosen.
 */
module Selection {
  import opened RealFacts

  /** The slot chosen from slot i on, with u what is left of the draw there; |w| when no slot is chosen. */
  function ChooseFrom(w: seq<real>, u: real, i: nat): (c: nat)
    requires i <= |w|
    ensures i <= c <= |w|
    decreases |w| - i
  {
    if i == |w| then i
    else if u < w[i] then i
    else ChooseFrom(w, u - w[i], i + 1)
  }

  /** A slot whose weight does not exceed what is left of the draw is passed over, its weight subtracted. */
  lemma ChooseFromSkip(w: seq<real>, u: real, i: nat)
    requires i < |w| && !(u < w[i])
    ensures ChooseFrom(w, u, i) == ChooseFrom(w, u - w[i], i + 1)
  {
  }

  /** The slot chosen for the whole draw u. */
  function Choose(w: seq<real>, u: real): (c: nat)
    ensures c <= |w|
  {
    ChooseFrom(w, u, 0)
  }

  /** The total weight of the slots before slot p, added from the left. */
  function Prefix(w: seq<real>, p: nat): real
    requires p <= |w|
  {
    if p == 0 then 0.0 else Prefix(w, p - 1) + w[p - 1]
  }

  /** The total weight of all slots. */
  function Total(w: seq<real>): real
  {
    Prefix(w, |w|)
  }

  /** Slots added at the end do not change the totals before the old end. */
  lemma {:induction false} PrefixAppend(a: seq<real>, b: seq<real>, p: nat)
    requires p <= |a|
    ensures Prefix(a + b, p) == Prefix(a, p)
  {
    if p > 0 {
      PrefixAppend(a, b, p - 1);
    }
  }

  /** With weights that are never negative, the prefix totals grow with p. */
  lemma {:induction false} PrefixMonotone(w: seq<real>, p: nat, q: nat)
    requires p <= q <= |w|
    requires forall k :: 0 <= k < |w| ==> w[k] >= 0.0
    ensures Prefix(w, p) <= Prefix(w, q)
    decreases q - p
  {
    if p < q {
      PrefixMonotone(w, p, q - 1);
    }
  }

  /**
   * From slot i on, with u - Prefix(w, i) left of the draw: every slot
   * passed over ends at or below u, and the chosen slot ends above u.
   */
  lemma {:induction false} ChooseFromMeaning(w: seq<real>, u: real, i: nat)
    requires i <= |w|
    ensures var c := ChooseFrom(w, u - Prefix(w, i), i);
            && (c < |w| ==> u < Prefix(w, c + 1))
            && (forall q :: i < q <= c ==> Prefix(w, q) <= u)
    decreases |w| - i
  {
    if i < |w| {
      if !(u - Prefix(w, i) < w[i]) {
        assert u - Prefix(w, i) - w[i] == u - Prefix(w, i + 1);
        ChooseFromMeaning(w, u, i + 1);
      }
    }
  }

  /**
   * For a draw u >= 0 the chosen slot p is the one whose interval
   * [Prefix(w, p), Prefix(w, p + 1)) holds u, so its weight is positive;
   * no slot is chosen only when u is at least the total, and with weights
   * that are never negative exactly then.
   */
  lemma ChooseMeaning(w: seq<real>, u: real)
    requires 0.0 <= u
    ensures var c := Choose(w, u);
            && (c < |w| ==> Prefix(w, c) <= u < Prefix(w, c + 1) && w[c] > 0.0)
            && (c == |w| ==> Total(w) <= u)
            && ((forall k :: 0 <= k < |w| ==> w[k] >= 0.0) && Total(w) <= u ==> c == |w|)
  {
    var c := Choose(w, u);
    assert Prefix(w, 0) == 0.0;
    assert u - Prefix(w, 0) == u;
    ChooseFromMeaning(w, u, 0);
    assert ChooseFrom(w, u - Prefix(w, 0), 0) == c;
    if c < |w| {
      assert Prefix(w, c) <= u by {
        if 0 < c {
          assert 0 < c <= c;
        }
      }
      if forall k :: 0 <= k < |w| ==> w[k] >= 0.0 {
        PrefixMonotone(w, c + 1, |w|);
      }
    } else if 0 < c {
      assert 0 < c <= c;
    }
  }

  /** With weights that are never negative, a slot whose interval holds u is the one chosen. */
  lemma ChooseUnique(w: seq<real>, u: real, p: nat)
    requires p < |w| && forall k :: 0 <= k < |w| ==> w[k] >= 0.0
    requires Prefix(w, p) <= u < Prefix(w, p + 1)
    ensures Choose(w, u) == p
  {
    var c := Choose(w, u);
    assert Prefix(w, 0) == 0.0;
    PrefixMonotone(w, 0, p);
    ChooseMeaning(w, u);
    if c < p {
      PrefixMonotone(w, c + 1, p);
    } else if p < c {
      if c < |w| {
        PrefixMonotone(w, p + 1, c);
      } else {
            PrefixMonotone(w, p + 1, |w|);
      }
    }
  }

  /**
   * A uniform draw u in [0, 1) scaled by the total of weights that are
   * never negative: with a positive total a slot of positive weight is
   * chosen, the one whose interval holds the scaled draw; with a total of
   * 0 none is.
   */
  lemma ChooseShare(w: seq<real>, u: real)
    requires 0.0 <= u < 1.0 && forall k :: 0 <= k < |w| ==> w[k] >= 0.0
    ensures var c := Choose(w, u * Total(w));
            && (Total(w) > 0.0 ==> c < |w| && Prefix(w, c) <= u * Total(w) < Prefix(w, c + 1) && w[c] > 0.0)
            && (Total(w) == 0.0 ==> c == |w|)
  {
    if Total(w) > 0.0 {
      ShareBelow(u, Total(w));
      ChooseBelowTotal(w, u * Total(w));
    } else if Total(w) == 0.0 {
      ChooseAtTotal(w, u * Total(w));
    }
  }

  /** A draw in [0, Total(w)) chooses a slot, the one whose interval holds it. */
  lemma ChooseBelowTotal(w: seq<real>, x: real)
    requires forall k :: 0 <= k < |w| ==> w[k] >= 0.0
    requires 0.0 <= x < Total(w)
    ensures var c := Choose(w, x); c < |w| && Prefix(w, c) <= x < Prefix(w, c + 1) && w[c] > 0.0
  {
    ChooseMeaning(w, x);
  }

  /** A draw at or above a total that is not negative chooses no slot. */
  lemma ChooseAtTotal(w: seq<real>, x: real)
    requires forall k :: 0 <= k < |w| ==> w[k] >= 0.0
    requires 0.0 <= Total(w) <= x
    ensures Choose(w, x) == |w|
  {
    ChooseMeaning(w, x);
  }
}
