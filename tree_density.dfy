/**
 * The exact density of a transmission tree given an epidemic trajectory.
 * The tree events, from the latest to the earliest, are matched in turn
 * against the trajectory events walked backwards in time; every skipped
 * infection contributes the probability that it did not involve two of
 * the k lineages, and every coalescence the probability that it did.
 */
module TreeDensity {
  import opened Wrappers
  import opened Doubles
  import opened EpidemicEvent
  import opened EpidemicState
  import opened EpiInfUtilityMethods
  import opened TreeEvents

  /** The largest difference in time at which a tree event and a trajectory event still match. */
  const Tolerance: real := 0.0000000001

  function Abs(x: real): real
  {
    if x < 0.0 then -x else x
  }

  /** eventsMatch. */
  predicate EventsMatch(te: TreeEvent, ev: EpidemicEvent)
  {
    if Abs(te.time - ev.time) > Tolerance then false
    else if te.kind == Coalescence && ev.kind != Some(Infection) then false
    else if te.kind == SampleEvent && ev.kind != Some(Recovery) then false
    else true
  }

  /** Two events match exactly when they lie within the tolerance and a coalescence meets an infection or a sample a recovery. */
  lemma EventsMatchMeaning(te: TreeEvent, ev: EpidemicEvent)
    ensures EventsMatch(te, ev) <==>
              && -Tolerance <= te.time - ev.time <= Tolerance
              && (te.kind == Coalescence ==> ev.kind == Some(Infection))
              && (te.kind == SampleEvent ==> ev.kind == Some(Recovery))
    ensures EventsMatch(te, ev) ==> ev.kind == Some(Infection) || ev.kind == Some(Recovery)
  {
  }

  /** Lists.reverse. */
  function Reversed<T>(s: seq<T>): (r: seq<T>)
    ensures |r| == |s| && forall i :: 0 <= i < |s| ==> r[i] == s[|s| - 1 - i]
  {
    if s == [] then [] else [s[|s| - 1]] + Reversed(s[..|s| - 1])
  }

  /** The number of lineages after the first t tree events: one more for each sample, one fewer for each coalescence. */
  function Lineages(tes: seq<TreeEvent>, t: nat): int
    requires t <= |tes|
  {
    if t == 0 then 0 else Lineages(tes, t - 1) + (if tes[t - 1].kind == SampleEvent then 1 else -1)
  }

  /** log(1 - k(k-1) / (N(N-1))): an infection among N infected that did not join two of the k lineages. */
  function NoEffectTerm(ln: real -> real, k: int, n: real): Double
  {
    LogOf(ln, Add(Finite(1.0), Neg(Div((k * (k - 1)) as real, n * (n - 1.0)))))
  }

  /** log(k(k-1) / (N(N-1))): the infection that joined two of the k lineages. */
  function EffectTerm(ln: real -> real, k: int, n: real): Double
  {
    LogOf(ln, Div((k * (k - 1)) as real, n * (n - 1.0)))
  }

  /** A trajectory event passed over: an infection adds its no-effect term when there are at least two lineages. */
  function SkipStep(ln: real -> real, logP: Double, ev: EpidemicEvent, st: Counts, k: int): Double
  {
    if ev.kind == Some(Infection) && k > 1 then Add(logP, NoEffectTerm(ln, k, st.I)) else logP
  }

  /** The matched tree event: a coalescence adds its effect term, a sample nothing. */
  function EventStep(ln: real -> real, logP: Double, te: TreeEvent, st: Counts, k: int): Double
  {
    if te.kind == SampleEvent then logP else Add(logP, EffectTerm(ln, k, st.I))
  }

  /**
   * The walk from tree event t and trajectory position idx with the log
   * density so far: pass over trajectory events that do not match, fail
   * when the trajectory runs out, and otherwise account for the match and
   * go on to the next tree event from the same position.
   */
  function Walk(ln: real -> real, tes: seq<TreeEvent>, evs: seq<EpidemicEvent>, sts: seq<Counts>, t: nat, idx: nat, logP: Double): Double
    requires t <= |tes| && idx <= |evs| <= |sts|
    decreases |tes| - t, |evs| - idx
  {
    if t == |tes| then logP
    else if idx < |evs| && !EventsMatch(tes[t], evs[idx]) then
      Walk(ln, tes, evs, sts, t, idx + 1, SkipStep(ln, logP, evs[idx], sts[idx], Lineages(tes, t)))
    else if idx == |evs| then NegInf
    else Walk(ln, tes, evs, sts, t + 1, idx, EventStep(ln, logP, tes[t], sts[idx], Lineages(tes, t)))
  }

  /** calculateLogP: the walk over the tree events and the reversed trajectory, from log density 0. */
  function LogP(ln: real -> real, tes: seq<TreeEvent>, events: seq<EpidemicEvent>, states: seq<Counts>): Double
    requires |events| <= |states|
  {
    Walk(ln, tes, Reversed(events), Reversed(states), 0, 0, Finite(0.0))
  }

  /** The first trajectory position from idx on that matches the tree event, or the length when none does. */
  function NextMatch(te: TreeEvent, evs: seq<EpidemicEvent>, idx: nat): (j: nat)
    requires idx <= |evs|
    ensures idx <= j <= |evs|
    decreases |evs| - idx
  {
    if idx == |evs| || EventsMatch(te, evs[idx]) then idx else NextMatch(te, evs, idx + 1)
  }

  lemma {:induction false} NextMatchMeaning(te: TreeEvent, evs: seq<EpidemicEvent>, idx: nat)
    requires idx <= |evs|
    ensures var j := NextMatch(te, evs, idx);
            && (forall i :: idx <= i < j ==> !EventsMatch(te, evs[i]))
            && (j < |evs| ==> EventsMatch(te, evs[j]))
    decreases |evs| - idx
  {
    if idx < |evs| && !EventsMatch(te, evs[idx]) {
      NextMatchMeaning(te, evs, idx + 1);
    }
  }

  /** The skipped events from position lo up to hi, folded in order. */
  function SkipAll(ln: real -> real, logP: Double, evs: seq<EpidemicEvent>, sts: seq<Counts>, lo: nat, hi: nat, k: int): Double
    requires lo <= hi <= |evs| <= |sts|
    decreases hi - lo
  {
    if lo == hi then logP else SkipAll(ln, SkipStep(ln, logP, evs[lo], sts[lo], k), evs, sts, lo + 1, hi, k)
  }

  /**
   * A tree event whose match lies at position j: the walk passes over the
   * events before j and then carries on with the next tree event from j
   * itself, so that the same trajectory event can match it again.
   */
  lemma {:induction false} WalkToMatch(ln: real -> real, tes: seq<TreeEvent>, evs: seq<EpidemicEvent>, sts: seq<Counts>, t: nat, idx: nat, logP: Double)
    requires t < |tes| && idx <= |evs| <= |sts|
    requires NextMatch(tes[t], evs, idx) < |evs|
    ensures var j := NextMatch(tes[t], evs, idx);
            var k := Lineages(tes, t);
            Walk(ln, tes, evs, sts, t, idx, logP)
              == Walk(ln, tes, evs, sts, t + 1, j, EventStep(ln, SkipAll(ln, logP, evs, sts, idx, j, k), tes[t], sts[j], k))
    decreases |evs| - idx
  {
    if !EventsMatch(tes[t], evs[idx]) {
      WalkToMatch(ln, tes, evs, sts, t, idx + 1, SkipStep(ln, logP, evs[idx], sts[idx], Lineages(tes, t)));
    }
  }

  /** A tree event with no match from idx on makes the whole density -infinity, whatever came before. */
  lemma {:induction false} WalkExhausted(ln: real -> real, tes: seq<TreeEvent>, evs: seq<EpidemicEvent>, sts: seq<Counts>, t: nat, idx: nat, logP: Double)
    requires t < |tes| && idx <= |evs| <= |sts|
    requires NextMatch(tes[t], evs, idx) == |evs|
    ensures Walk(ln, tes, evs, sts, t, idx, logP) == NegInf
    decreases |evs| - idx
  {
    if idx < |evs| {
      WalkExhausted(ln, tes, evs, sts, t, idx + 1, SkipStep(ln, logP, evs[idx], sts[idx], Lineages(tes, t)));
    }
  }

  /** With fewer than two lineages, or no infection among them, the passed-over events leave the log density as it was. */
  lemma {:induction false} SkipAllNeutral(ln: real -> real, logP: Double, evs: seq<EpidemicEvent>, sts: seq<Counts>, lo: nat, hi: nat, k: int)
    requires lo <= hi <= |evs| <= |sts|
    requires k <= 1 || forall i :: lo <= i < hi ==> evs[i].kind != Some(Infection)
    ensures SkipAll(ln, logP, evs, sts, lo, hi, k) == logP
    decreases hi - lo
  {
    if lo < hi {
      SkipAllNeutral(ln, logP, evs, sts, lo + 1, hi, k);
    }
  }

  /** The kinds of the first t tree events. */
  function KindsUpTo(tes: seq<TreeEvent>, t: nat): (r: seq<TreeEventType>)
    requires t <= |tes|
    ensures |r| == t && forall i :: 0 <= i < t ==> r[i] == tes[i].kind
  {
    seq(t, i requires 0 <= i < t => tes[i].kind)
  }

  /** The lineage count after t tree events is the number of samples among them minus the number of coalescences. */
  lemma {:induction false} LineagesCount(tes: seq<TreeEvent>, t: nat)
    requires t <= |tes|
    ensures Lineages(tes, t) == multiset(KindsUpTo(tes, t))[SampleEvent] as int - multiset(KindsUpTo(tes, t))[Coalescence] as int
  {
    if t > 0 {
      LineagesCount(tes, t - 1);
      assert KindsUpTo(tes, t) == KindsUpTo(tes, t - 1) + [tes[t - 1].kind];
    }
  }

  class TreeDensity {
    var nodes: seq<TreeNode>
    var rootHeight: real
    var origin: real
    var trajectoryEvents: seq<EpidemicEvent>
    var trajectoryStates: seq<Counts>
    var treeEventList: seq<TreeEvent>
    var logP: Double

    /** initAndValidate: the inputs and an empty event list. */
    constructor(nodes0: seq<TreeNode>, rootHeight0: real, origin0: real, events0: seq<EpidemicEvent>, states0: seq<Counts>)
      ensures nodes == nodes0 && rootHeight == rootHeight0 && origin == origin0
      ensures trajectoryEvents == events0 && trajectoryStates == states0
      ensures treeEventList == [] && logP == Finite(0.0)
    {
      nodes, rootHeight, origin := nodes0, rootHeight0, origin0;
      trajectoryEvents, trajectoryStates := events0, states0;
      treeEventList := [];
      logP := Finite(0.0);
    }

    /** calculateLogP: rebuild the tree events, then walk them against the reversed trajectory. */
    method CalculateLogP(ln: real -> real) returns (r: Double)
      requires |trajectoryEvents| <= |trajectoryStates|
      modifies this
      ensures nodes == old(nodes) && rootHeight == old(rootHeight) && origin == old(origin)
      ensures trajectoryEvents == old(trajectoryEvents) && trajectoryStates == old(trajectoryStates)
      ensures treeEventList == EventList(nodes, origin, rootHeight)
      ensures r == logP == LogP(ln, treeEventList, trajectoryEvents, trajectoryStates)
    {
      var tes := BuildEventList(nodes, origin, rootHeight);
      treeEventList := tes;
      var revEvents := Reversed(trajectoryEvents);
      var revStates := Reversed(trajectoryStates);
      r := WalkEvents(ln, tes, revEvents, revStates);
      logP := r;
    }

    /** The loops of calculateLogP over the tree events and the reversed trajectory. */
    method WalkEvents(ln: real -> real, tes: seq<TreeEvent>, revEvents: seq<EpidemicEvent>, revStates: seq<Counts>) returns (r: Double)
      requires |revEvents| <= |revStates|
      ensures r == Walk(ln, tes, revEvents, revStates, 0, 0, Finite(0.0))
    {
      var acc := Finite(0.0);
      var idx := 0;
      var k := 0;
      var t := 0;
      while t < |tes|
        invariant 0 <= t <= |tes| && 0 <= idx <= |revEvents|
        invariant k == Lineages(tes, t)
        invariant Walk(ln, tes, revEvents, revStates, t, idx, acc) == Walk(ln, tes, revEvents, revStates, 0, 0, Finite(0.0))
      {
        var treeEvent := tes[t];
        while idx < |revEvents| && !EventsMatch(treeEvent, revEvents[idx])
          invariant 0 <= idx <= |revEvents|
          invariant Walk(ln, tes, revEvents, revStates, t, idx, acc) == Walk(ln, tes, revEvents, revStates, 0, 0, Finite(0.0))
        {
          if revEvents[idx].kind == Some(Infection) && k > 1 {
            var n := revStates[idx].I;
            acc := Add(acc, NoEffectTerm(ln, k, n));
          }
          idx := idx + 1;
        }
        if idx == |revEvents| {
          return NegInf;
        }
        if treeEvent.kind == SampleEvent {
          k := k + 1;
        } else {
          var n := revStates[idx].I;
          acc := Add(acc, EffectTerm(ln, k, n));
          k := k - 1;
        }
        t := t + 1;
      }
      r := acc;
    }
  }
}
