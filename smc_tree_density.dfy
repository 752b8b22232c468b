/**
 * The sequential Monte Carlo estimate of the density of a transmission
 * tree under the SIR model with sampling. Particles are epidemic states;
 * between two tree events each particle is simulated event by event and
 * weighted by how well it explains the tree event that ends the interval,
 * and the particles are then resampled in proportion to their weights.
 * The random draws are parameters, given in the order the program takes
 * them: per interval and particle, the steps of the particle's simulation,
 * and per interval and slot, the uniform draw that picks the slot's copy.
 */
module SMCTreeDensity {
  import opened Wrappers
  import opened Doubles
  import opened RealFacts
  import opened Selection
  import opened EpidemicState
  import opened CompartmentModels
  import opened TreeEvents

  /** The rates of the sampling model. */
  datatype Rates = Rates(infection: real, recovery: real, samplingProb: real)

  /** One step of a particle: the exponential waiting time drawn for the total propensity, and the uniform draw in [0, 1) that picks the event type. */
  datatype StepDraw = StepDraw(dt: real, u: real)

  /**
   * All draws of calculateLogP: the steps of particle p in interval i, and
   * the uniform draw in [0, 1) for slot p of the resampling after interval i.
   */
  datatype Draws = Draws(steps: (nat, nat) -> seq<StepDraw>, picks: (nat, nat) -> real)

  /** A particle after updateParticle: its state, changed in place, and its weight. */
  datatype Weighed = Weighed(c: Counts, weight: real)

  /**
   * The filter between two tree events: either it has stopped because all
   * weights were zero, keeping the accumulated log estimate, or it goes on
   * with the particle states, the weights of the last interval, the
   * accumulated log estimate, the start of the next interval and the
   * lineage counter.
   */
  datatype Filtering =
    | Rejected(logP: Double)
    | Running(states: seq<Counts>, weights: seq<real>, logP: Double, t: real, k: int)

  // ---------------------------------------------------------------------
  // Propensities and the choice of an event type

  /** The propensity calculatePropensities gives one event type; the model has no others. */
  function Propensity(r: Rates, c: Counts, t: SingleEventType): real
  {
    match t
    case SingleInfection => r.infection * c.S * c.I
    case SingleRecovery => r.recovery * (1.0 - r.samplingProb) * c.I
    case SingleSample => r.recovery * r.samplingProb * c.I
    case _ => 0.0
  }

  /** getTotalPropensity: infection, sampling and recovery added in that order. */
  function TotalPropensity(r: Rates, c: Counts): real
  {
    Propensity(r, c, SingleInfection) + Propensity(r, c, SingleSample) + Propensity(r, c, SingleRecovery)
  }

  /** The model's propensity table, the one the class keeps, agrees with the propensities above on its three types. */
  lemma TableAgrees(m: SIRModelSampling, table: map<SingleEventType, real>, c: Counts)
    ensures var r := Rates(m.infectionRate, m.recoveryRate, m.samplingProb);
            var t := m.Table(table, c);
            && t[SingleInfection] == Propensity(r, c, SingleInfection)
            && t[SingleRecovery] == Propensity(r, c, SingleRecovery)
            && t[SingleSample] == Propensity(r, c, SingleSample)
            && TableSum(t, [SingleInfection, SingleSample, SingleRecovery]) == TotalPropensity(r, c)
  {
    TableSumThree(m.Table(table, c), SingleInfection, SingleSample, SingleRecovery);
  }

  /** The three types of the sampling model's table. */
  function Types(): set<SingleEventType>
  {
    {SingleInfection, SingleRecovery, SingleSample}
  }

  /** The order in which the key set of the propensity map lists its three types: each once. */
  predicate KeyOrder(keys: seq<SingleEventType>)
  {
    |keys| == 3 && (forall j :: 0 <= j < 3 ==> keys[j] in Types()) && keys[0] != keys[1] && keys[0] != keys[2] && keys[1] != keys[2]
  }

  /** The propensities in key order. */
  function KeyWeights(r: Rates, c: Counts, keys: seq<SingleEventType>): (w: seq<real>)
    ensures |w| == |keys| && forall j :: 0 <= j < |keys| ==> w[j] == Propensity(r, c, keys[j])
  {
    seq(|keys|, j requires 0 <= j < |keys| => Propensity(r, c, keys[j]))
  }

  /** The three types listed in any order have the same total as getTotalPropensity. */
  lemma KeyWeightsTotal(r: Rates, c: Counts, keys: seq<SingleEventType>)
    requires KeyOrder(keys)
    ensures Total(KeyWeights(r, c, keys)) == TotalPropensity(r, c)
  {
    var w := KeyWeights(r, c, keys);
    assert Prefix(w, 1) == w[0];
    assert Prefix(w, 2) == w[0] + w[1];
    assert Total(w) == w[0] + w[1] + w[2];
    var a, b, e := Propensity(r, c, SingleInfection), Propensity(r, c, SingleSample), Propensity(r, c, SingleRecovery);
    assert keys[0] in Types() && keys[1] in Types() && keys[2] in Types();
    if keys[0] == SingleInfection {
      if keys[1] == SingleSample { assert keys[2] == SingleRecovery; } else { assert keys[2] == SingleSample; }
    } else if keys[0] == SingleSample {
      if keys[1] == SingleInfection { assert keys[2] == SingleRecovery; } else { assert keys[2] == SingleInfection; }
    } else {
      if keys[1] == SingleInfection { assert keys[2] == SingleSample; } else { assert keys[2] == SingleInfection; }
    }
  }

  /** A uniform draw in [0, 1) scaled to a total, as nextDouble() times the total. */
  function Scaled(u: real, total: real): real
  {
    u * total
  }

  /** ChooseShare for a draw scaled by Scaled. */
  lemma ChooseScaled(w: seq<real>, u: real)
    requires 0.0 <= u < 1.0 && forall k :: 0 <= k < |w| ==> w[k] >= 0.0
    ensures var x := Scaled(u, Total(w));
            var c := Choose(w, x);
            Total(w) > 0.0 ==> c < |w| && Prefix(w, c) <= x < Prefix(w, c + 1) && w[c] > 0.0
  {
    ChooseShare(w, u);
  }

  /**
   * The event type updateParticle picks with the draw u: the first type in
   * key order at which the running subtraction of the propensities from
   * u times the total goes below zero, or none (the program then passes a
   * null type on and fails).
   */
  function PickedType(r: Rates, c: Counts, keys: seq<SingleEventType>, u: real): (o: Option<SingleEventType>)
    ensures o.Some? ==> o.value in keys
  {
    var j := Choose(KeyWeights(r, c, keys), Scaled(u, TotalPropensity(r, c)));
    if j < |keys| then Some(keys[j]) else None
  }

  /** Rates and counts that give no propensity a negative value. */
  predicate NonNegative(r: Rates, c: Counts)
  {
    r.infection >= 0.0 && r.recovery >= 0.0 && 0.0 <= r.samplingProb <= 1.0 && c.S >= 0.0 && c.I >= 0.0
  }

  lemma PropensitiesNonNegative(r: Rates, c: Counts)
    requires NonNegative(r, c)
    ensures forall t :: Propensity(r, c, t) >= 0.0
  {
    MulNonNeg(r.infection, c.S);
    MulNonNeg(r.infection * c.S, c.I);
    MulNonNeg(r.recovery, 1.0 - r.samplingProb);
    MulNonNeg(r.recovery * (1.0 - r.samplingProb), c.I);
    MulNonNeg(r.recovery, r.samplingProb);
    MulNonNeg(r.recovery * r.samplingProb, c.I);
  }

  /**
   * With a positive total of propensities that are never negative, a draw
   * in [0, 1) always picks a type, and one of positive propensity: the type
   * whose share of the total holds the scaled draw.
   */
  lemma PickedTypeMeaning(r: Rates, c: Counts, keys: seq<SingleEventType>, u: real)
    requires KeyOrder(keys) && NonNegative(r, c) && 0.0 <= u < 1.0 && TotalPropensity(r, c) > 0.0
    ensures var w := KeyWeights(r, c, keys);
            && PickedType(r, c, keys, u).Some?
            && Propensity(r, c, PickedType(r, c, keys, u).value) > 0.0
            && exists j :: 0 <= j < 3 && keys[j] == PickedType(r, c, keys, u).value
                 && Prefix(w, j) <= Scaled(u, Total(w)) < Prefix(w, j + 1)
  {
    var w := KeyWeights(r, c, keys);
    var total := TotalPropensity(r, c);
    KeyWeightsTotal(r, c, keys);
    PropensitiesNonNegative(r, c);
    ChooseScaled(w, u);
    assert Total(w) == total;
    assert Scaled(u, Total(w)) == Scaled(u, total);
    var j := Choose(w, Scaled(u, total));
    assert j < 3;
    assert PickedType(r, c, keys, u) == Some(keys[j]);
  }

  // ---------------------------------------------------------------------
  // updateParticle

  /** The weight and the state at the end: the state is marked invalid by isValid, a parameter here, or keeps the weight. */
  function Weigh(valid: Counts -> bool, c: Counts, w: real): (o: Weighed)
    ensures o.c == c && (valid(c) ==> o.weight == w) && (!valid(c) ==> o.weight == 0.0)
  {
    Weighed(c, if valid(c) then w else 0.0)
  }

  /**
   * The tree event that ends the interval: a coalescence is an infection,
   * weighted by the chance that the infection joins the two lineages and
   * by its propensity; a leaf is a sample, weighted by its propensity.
   */
  function Finish(r: Rates, valid: Counts -> bool, c: Counts, ev: TreeEvent, cp: real): (o: Weighed)
    ensures o.c == SingleIncremented(SIRSampling, c, if ev.kind == Coalescence then SingleInfection else SingleSample)
  {
    if ev.kind == Coalescence then
      var c1 := SingleIncremented(SIRSampling, c, SingleInfection);
      Weigh(valid, c1, cp * (ProbCoalescence(c1.I) * Propensity(r, c1, SingleInfection)))
    else
      var c1 := SingleIncremented(SIRSampling, c, SingleSample);
      Weigh(valid, c1, cp * Propensity(r, c1, SingleSample))
  }

  /** The conditional probability after an event that keeps the particle alive: an infection multiplies it by the chance that it joins no lineages. */
  function AfterEvent(cp: real, ty: SingleEventType, c1: Counts, lineages: int): real
  {
    if ty == SingleInfection then cp * ProbNoCoalescence(c1.I, lineages) else cp
  }

  /**
   * The loop of updateParticle from time t with conditional probability cp:
   * with no propensity, or when the next waiting time passes the tree
   * event, the interval ends in the tree event; otherwise a type is picked
   * and applied. The particle dies, with weight 0, when fewer infecteds than
   * lineages remain or when a sample happens inside the interval; an
   * infection multiplies cp by the chance that it joins no lineages. The
   * result is None when the type cannot be picked or the steps run out.
   */
  function Run(r: Rates, keys: seq<SingleEventType>, valid: Counts -> bool, c: Counts, t: real, lineages: int,
               ev: TreeEvent, steps: seq<StepDraw>, cp: real): (o: Option<Weighed>)
    decreases |steps|, 1
  {
    if !(TotalPropensity(r, c) > 0.0) then Some(Finish(r, valid, c, ev, cp))
    else if steps == [] then None
    else if t + steps[0].dt > ev.time then Some(Finish(r, valid, c, ev, cp))
    else RunOn(r, keys, valid, c, t, lineages, ev, steps, cp)
  }

  /** One event of the loop of updateParticle, and the loop after it. */
  function RunOn(r: Rates, keys: seq<SingleEventType>, valid: Counts -> bool, c: Counts, t: real, lineages: int,
                 ev: TreeEvent, steps: seq<StepDraw>, cp: real): (o: Option<Weighed>)
    requires steps != []
    decreases |steps|, 0
  {
    match PickedType(r, c, keys, steps[0].u)
    case None => None
    case Some(ty) =>
      var c1 := SingleIncremented(SIRSampling, c, ty);
      if c1.I < lineages as real || ty == SingleSample then Some(Weighed(c1, 0.0))
      else Run(r, keys, valid, c1, t + steps[0].dt, lineages, ev, steps[1..], AfterEvent(cp, ty, c1, lineages))
  }

  /** The loop ends in the tree event when there is no propensity or the first waiting time passes the event. */
  lemma RunStops(r: Rates, keys: seq<SingleEventType>, valid: Counts -> bool, c: Counts, t: real, lineages: int,
                 ev: TreeEvent, steps: seq<StepDraw>, cp: real)
    requires !(TotalPropensity(r, c) > 0.0) || (steps != [] && t + steps[0].dt > ev.time)
    ensures Run(r, keys, valid, c, t, lineages, ev, steps, cp) == Some(Finish(r, valid, c, ev, cp))
  {
  }

  /**
   * The early exits: an event inside the interval that leaves fewer
   * infecteds than lineages, or that is a sample, gives weight 0 at once,
   * whatever the remaining steps.
   */
  lemma RunKills(r: Rates, keys: seq<SingleEventType>, valid: Counts -> bool, c: Counts, t: real, lineages: int,
                 ev: TreeEvent, steps: seq<StepDraw>, cp: real, ty: SingleEventType)
    requires TotalPropensity(r, c) > 0.0 && steps != [] && t + steps[0].dt <= ev.time
    requires PickedType(r, c, keys, steps[0].u) == Some(ty)
    requires SingleIncremented(SIRSampling, c, ty).I < lineages as real || ty == SingleSample
    ensures Run(r, keys, valid, c, t, lineages, ev, steps, cp) == Some(Weighed(SingleIncremented(SIRSampling, c, ty), 0.0))
  {
  }

  /** An event inside the interval that does not kill the particle is applied and the loop goes on from it. */
  lemma RunAdvances(r: Rates, keys: seq<SingleEventType>, valid: Counts -> bool, c: Counts, t: real, lineages: int,
                    ev: TreeEvent, steps: seq<StepDraw>, cp: real, ty: SingleEventType)
    requires TotalPropensity(r, c) > 0.0 && steps != [] && t + steps[0].dt <= ev.time
    requires PickedType(r, c, keys, steps[0].u) == Some(ty)
    requires !(SingleIncremented(SIRSampling, c, ty).I < lineages as real || ty == SingleSample)
    ensures var c1 := SingleIncremented(SIRSampling, c, ty);
            Run(r, keys, valid, c, t, lineages, ev, steps, cp)
            == Run(r, keys, valid, c1, t + steps[0].dt, lineages, ev, steps[1..], AfterEvent(cp, ty, c1, lineages))
  {
    assert Run(r, keys, valid, c, t, lineages, ev, steps, cp) == RunOn(r, keys, valid, c, t, lineages, ev, steps, cp);
  }

  /**
   * Every event keeps S + I + R, never adds susceptibles and never removes
   * recovered hosts, and so does the whole of updateParticle, the tree
   * event included.
   */
  lemma {:induction false} RunConserves(r: Rates, keys: seq<SingleEventType>, valid: Counts -> bool, c: Counts, t: real, lineages: int,
                                        ev: TreeEvent, steps: seq<StepDraw>, cp: real)
    ensures var o := Run(r, keys, valid, c, t, lineages, ev, steps, cp);
            o.Some? ==> o.value.c.S + o.value.c.I + o.value.c.R == c.S + c.I + c.R && o.value.c.S <= c.S && o.value.c.R >= c.R
    decreases |steps|
  {
    var o := Run(r, keys, valid, c, t, lineages, ev, steps, cp);
    SingleIncrementMeaning(SIRSampling, c, SingleInfection);
    SingleIncrementMeaning(SIRSampling, c, SingleSample);
    if !(TotalPropensity(r, c) > 0.0) || (steps != [] && t + steps[0].dt > ev.time) {
      RunStops(r, keys, valid, c, t, lineages, ev, steps, cp);
    } else if steps != [] {
      var ty := PickedType(r, c, keys, steps[0].u);
      if ty.Some? {
        var c1 := SingleIncremented(SIRSampling, c, ty.value);
        SingleIncrementMeaning(SIRSampling, c, ty.value);
        if !(c1.I < lineages as real || ty.value == SingleSample) {
          var cp1 := AfterEvent(cp, ty.value, c1, lineages);
          RunAdvances(r, keys, valid, c, t, lineages, ev, steps, cp, ty.value);
          RunConserves(r, keys, valid, c1, t + steps[0].dt, lineages, ev, steps[1..], cp1);
        }
      }
    }
  }

  // ---------------------------------------------------------------------
  // calculateLogP

  /** The states of the updated particles. */
  function StatesOf(us: seq<Weighed>): (cs: seq<Counts>)
    ensures |cs| == |us| && forall p :: 0 <= p < |us| ==> cs[p] == us[p].c
  {
    seq(|us|, p requires 0 <= p < |us| => us[p].c)
  }

  /** The weights of the updated particles, in particle order. */
  function WeightsOf(us: seq<Weighed>): (ws: seq<real>)
    ensures |ws| == |us| && forall p :: 0 <= p < |us| ==> ws[p] == us[p].weight
  {
    seq(|us|, p requires 0 <= p < |us| => us[p].weight)
  }

  /** updateParticle for particles 0..|states|-1 of interval i, each from its own steps. */
  function Updates(r: Rates, keys: seq<SingleEventType>, valid: Counts -> bool, states: seq<Counts>, t: real, k: int,
                   ev: TreeEvent, d: Draws, i: nat): (o: Option<seq<Weighed>>)
    ensures o.Some? ==> |o.value| == |states|
  {
    if states == [] then Some([])
    else
      var p := |states| - 1;
      match Updates(r, keys, valid, states[..p], t, k, ev, d, i)
      case None => None
      case Some(us) =>
        match Run(r, keys, valid, states[p], t, k, ev, d.steps(i, p), 1.0)
        case None => None
        case Some(u) => Some(us + [u])
  }

  /** Each particle is updated on its own: particle p's result is updateParticle of its state. */
  lemma {:induction false} UpdatesAt(r: Rates, keys: seq<SingleEventType>, valid: Counts -> bool, states: seq<Counts>, t: real, k: int,
                                     ev: TreeEvent, d: Draws, i: nat, p: nat)
    requires p < |states| && Updates(r, keys, valid, states, t, k, ev, d, i).Some?
    ensures Some(Updates(r, keys, valid, states, t, k, ev, d, i).value[p]) == Run(r, keys, valid, states[p], t, k, ev, d.steps(i, p), 1.0)
    decreases |states|
  {
    var q := |states| - 1;
    if p < q {
      UpdatesAt(r, keys, valid, states[..q], t, k, ev, d, i, p);
    }
  }

  /**
   * The resampling after interval i for slots 0..m-1: slot p copies the
   * state chosen by its draw times the sum of weights; a draw that
   * chooses no particle makes the program read past the end of the list.
   */
  function Resampled(states: seq<Counts>, ws: seq<real>, sum: real, d: Draws, i: nat, m: nat): (o: Option<seq<Counts>>)
    ensures o.Some? ==> |o.value| == m
  {
    if m == 0 then Some([])
    else
      match Resampled(states, ws, sum, d, i, m - 1)
      case None => None
      case Some(front) =>
        var choice := Choose(ws, Scaled(d.picks(i, m - 1), sum));
        if choice < |states| then Some(front + [states[choice]]) else None
  }

  /** Slot p holds the state its own draw chooses. */
  lemma {:induction false} ResampledAt(states: seq<Counts>, ws: seq<real>, sum: real, d: Draws, i: nat, m: nat, p: nat)
    requires p < m && Resampled(states, ws, sum, d, i, m).Some?
    ensures var choice := Choose(ws, Scaled(d.picks(i, p), sum));
            choice < |states| && Resampled(states, ws, sum, d, i, m).value[p] == states[choice]
  {
    if p < m - 1 {
      ResampledAt(states, ws, sum, d, i, m - 1, p);
    }
  }

  /** Uniform draws in [0, 1) for the resampling after interval i. */
  predicate Uniform(d: Draws, i: nat, m: nat)
  {
    forall p :: 0 <= p < m ==> 0.0 <= d.picks(i, p) < 1.0
  }

  /**
   * With weights that are never negative, a positive sum and uniform
   * draws, the resampling never falls through, and each slot holds a copy
   * of a particle of positive weight whose share of the sum holds the
   * slot's scaled draw.
   */
  lemma ResampleMeaning(states: seq<Counts>, ws: seq<real>, d: Draws, i: nat, m: nat)
    requires |ws| == |states| && (forall p :: 0 <= p < |ws| ==> ws[p] >= 0.0) && Total(ws) > 0.0 && Uniform(d, i, m)
    ensures Resampled(states, ws, Total(ws), d, i, m).Some?
    ensures forall p :: 0 <= p < m ==>
              var c := Choose(ws, Scaled(d.picks(i, p), Total(ws)));
              && c < |ws| && ws[c] > 0.0 && Prefix(ws, c) <= Scaled(d.picks(i, p), Total(ws)) < Prefix(ws, c + 1)
              && Resampled(states, ws, Total(ws), d, i, m).value[p] == states[c]
  {
    ResampleSome(states, ws, d, i, m);
    forall p | 0 <= p < m
      ensures var c := Choose(ws, Scaled(d.picks(i, p), Total(ws)));
              && c < |ws| && ws[c] > 0.0 && Prefix(ws, c) <= Scaled(d.picks(i, p), Total(ws)) < Prefix(ws, c + 1)
              && Resampled(states, ws, Total(ws), d, i, m).value[p] == states[c]
    {
      ChooseScaled(ws, d.picks(i, p));
      ResampledAt(states, ws, Total(ws), d, i, m, p);
    }
  }

  lemma {:induction false} ResampleSome(states: seq<Counts>, ws: seq<real>, d: Draws, i: nat, m: nat)
    requires |ws| == |states| && (forall p :: 0 <= p < |ws| ==> ws[p] >= 0.0) && Total(ws) > 0.0 && Uniform(d, i, m)
    ensures Resampled(states, ws, Total(ws), d, i, m).Some?
  {
    if m > 0 {
      ResampleSome(states, ws, d, i, m - 1);
      ChooseScaled(ws, d.picks(i, m - 1));
    }
  }

  /**
   * One interval of calculateLogP: every particle updated, log(sum / n)
   * added to the estimate before the sum is checked, the filter stopped
   * when the sum is not positive, and otherwise the particles resampled,
   * the interval start moved to the tree event and the lineage counter
   * raised by a coalescence and lowered by a leaf.
   */
  function Interval(r: Rates, keys: seq<SingleEventType>, valid: Counts -> bool, ln: real -> real, n: nat,
                    f: Filtering, ev: TreeEvent, d: Draws, i: nat): (o: Option<Filtering>)
    requires f.Running? && |f.states| == n
    ensures o.Some? && o.value.Running? ==> |o.value.states| == n && |o.value.weights| == n
  {
    match Updates(r, keys, valid, f.states, f.t, f.k, ev, d, i)
    case None => None
    case Some(us) =>
      var ws := WeightsOf(us);
      var sum := Total(ws);
      var lp := Add(f.logP, LogOf(ln, Div(sum, n as real)));
      if !(sum > 0.0) then Some(Rejected(lp))
      else
        match Resampled(StatesOf(us), ws, sum, d, i, n)
        case None => None
        case Some(next) => Some(Running(next, ws, lp, ev.time, if ev.kind == Coalescence then f.k + 1 else f.k - 1))
  }

  /** The start of calculateLogP: n copies of the initial state, no weights, an estimate of 0, time 0 and one lineage. */
  function Start(n: nat, S0: int): (f: Filtering)
    ensures f.Running? && |f.states| == n
  {
    Running(seq(n, _ => SingleInitialCounts(S0)), [], Finite(0.0), 0.0, 1)
  }

  /** The filter over the first |events| tree events. */
  function Filter(r: Rates, keys: seq<SingleEventType>, valid: Counts -> bool, ln: real -> real, n: nat, S0: int,
                  events: seq<TreeEvent>, d: Draws): (o: Option<Filtering>)
    ensures o.Some? && o.value.Running? ==> |o.value.states| == n && (events != [] ==> |o.value.weights| == n)
  {
    if events == [] then Some(Start(n, S0))
    else
      var i := |events| - 1;
      match Filter(r, keys, valid, ln, n, S0, events[..i], d)
      case None => None
      case Some(f) =>
        if f.Rejected? then Some(f) else Interval(r, keys, valid, ln, n, f, events[i], d, i)
  }

  /** The value calculateLogP returns: -infinity once stopped, and otherwise the log of the mean of the last weights. */
  function LogPAsWritten(ln: real -> real, n: nat, f: Filtering): (lp: Double)
    ensures f.Rejected? ==> lp.NegInf?
  {
    match f
    case Rejected(_) => NegInf
    case Running(_, ws, _, _, _) => LogOf(ln, Div(Total(ws), n as real))
  }

  /** The estimate the accumulation in the loop builds: -infinity once stopped, and otherwise the sum of log(sum / n) over all intervals. */
  function LogP(f: Filtering): (lp: Double)
    ensures f.Rejected? ==> lp.NegInf?
  {
    match f
    case Rejected(_) => NegInf
    case Running(_, _, lp, _, _) => lp
  }

  /** The number of coalescences minus the number of leaves among the events. */
  function Balance(events: seq<TreeEvent>): int
  {
    if events == [] then 0
    else Balance(events[..|events| - 1]) + (if events[|events| - 1].kind == Coalescence then 1 else -1)
  }

  /**
   * While the filter runs, the lineage counter is 1 plus the coalescences
   * minus the leaves seen so far, and the interval start is the time of the
   * last tree event, or 0 before the first.
   */
  lemma {:induction false} LineagesMeaning(r: Rates, keys: seq<SingleEventType>, valid: Counts -> bool, ln: real -> real, n: nat, S0: int,
                                           events: seq<TreeEvent>, d: Draws)
    requires Filter(r, keys, valid, ln, n, S0, events, d).Some? && Filter(r, keys, valid, ln, n, S0, events, d).value.Running?
    ensures var f := Filter(r, keys, valid, ln, n, S0, events, d).value;
            f.k == 1 + Balance(events) && f.t == (if events == [] then 0.0 else events[|events| - 1].time)
  {
    if events != [] {
      var i := |events| - 1;
      LineagesMeaning(r, keys, valid, ln, n, S0, events[..i], d);
    }
  }

  /**
   * A zero sum of weights stops the filter: the estimate kept is the old
   * one plus log(0) (or log of NaN when there are no particles), and the
   * value returned is -infinity.
   */
  lemma ZeroSumRejects(r: Rates, keys: seq<SingleEventType>, valid: Counts -> bool, ln: real -> real, n: nat,
                       f: Filtering, ev: TreeEvent, d: Draws, i: nat)
    requires f.Running? && |f.states| == n
    requires var o := Updates(r, keys, valid, f.states, f.t, f.k, ev, d, i); o.Some? && !(Total(WeightsOf(o.value)) > 0.0)
    ensures var o := Updates(r, keys, valid, f.states, f.t, f.k, ev, d, i).value;
            var lp := Add(f.logP, LogOf(ln, Div(Total(WeightsOf(o)), n as real)));
            && Interval(r, keys, valid, ln, n, f, ev, d, i) == Some(Rejected(lp))
            && LogPAsWritten(ln, n, Rejected(lp)).NegInf?
            && (Total(WeightsOf(o)) == 0.0 && n > 0 && (f.logP.Finite? || f.logP.NegInf?) ==> lp.NegInf?)
  {
  }

  /**
   * What calculateLogP returns drops every interval but the last: the
   * estimate the loop accumulates is the estimate over the earlier events
   * plus the value returned, so the two differ whenever the earlier
   * estimate is finite and not 0.
   */
  lemma FinalIgnoresAccumulated(r: Rates, keys: seq<SingleEventType>, valid: Counts -> bool, ln: real -> real, n: nat, S0: int,
                                events: seq<TreeEvent>, d: Draws)
    requires events != []
    requires Filter(r, keys, valid, ln, n, S0, events, d).Some? && Filter(r, keys, valid, ln, n, S0, events, d).value.Running?
    ensures var before := Filter(r, keys, valid, ln, n, S0, events[..|events| - 1], d).value;
            var f := Filter(r, keys, valid, ln, n, S0, events, d).value;
            && before.Running?
            && LogP(f) == Add(LogP(before), LogPAsWritten(ln, n, f))
            && (LogP(before).Finite? && LogP(before).v != 0.0 && LogPAsWritten(ln, n, f).Finite? ==> LogP(f) != LogPAsWritten(ln, n, f))
  {
  }

  /** Once one particle of an interval fails, the whole update fails. */
  lemma {:induction false} UpdatesSettled(r: Rates, keys: seq<SingleEventType>, valid: Counts -> bool, states: seq<Counts>, t: real, k: int,
                                          ev: TreeEvent, d: Draws, i: nat, p: nat)
    requires p <= |states| && Updates(r, keys, valid, states[..p], t, k, ev, d, i).None?
    ensures Updates(r, keys, valid, states, t, k, ev, d, i).None?
    decreases |states|
  {
    if p < |states| {
      var q := |states| - 1;
      assert states[..q][..p] == states[..p];
      UpdatesSettled(r, keys, valid, states[..q], t, k, ev, d, i, p);
    } else {
      assert states[..p] == states;
    }
  }

  /** Updating one more particle extends the update of the earlier ones by that particle's result. */
  lemma UpdatesStep(r: Rates, keys: seq<SingleEventType>, valid: Counts -> bool, states: seq<Counts>, t: real, k: int,
                    ev: TreeEvent, d: Draws, i: nat, p: nat, us: seq<Weighed>)
    requires p < |states| && Updates(r, keys, valid, states[..p], t, k, ev, d, i) == Some(us)
    ensures var o := Run(r, keys, valid, states[p], t, k, ev, d.steps(i, p), 1.0);
            Updates(r, keys, valid, states[..p + 1], t, k, ev, d, i) == (if o.Some? then Some(us + [o.value]) else None)
  {
    assert states[..p + 1][..p] == states[..p];
  }

  /** The weights of one more particle are the earlier weights and its own. */
  lemma WeightsAppend(us: seq<Weighed>, u: Weighed)
    ensures WeightsOf(us + [u]) == WeightsOf(us) + [u.weight]
    ensures Total(WeightsOf(us + [u])) == Total(WeightsOf(us)) + u.weight
  {
    PrefixAppend(WeightsOf(us), [u.weight], |us|);
  }

  /** The outcome of an interval, case by case: the update fails, the sum is not positive, or the resampling decides. */
  lemma IntervalOutcome(r: Rates, keys: seq<SingleEventType>, valid: Counts -> bool, ln: real -> real, n: nat,
                        f: Filtering, ev: TreeEvent, d: Draws, i: nat)
    requires f.Running? && |f.states| == n
    ensures var u := Updates(r, keys, valid, f.states, f.t, f.k, ev, d, i);
            var o := Interval(r, keys, valid, ln, n, f, ev, d, i);
            && (u.None? ==> o.None?)
            && (u.Some? ==>
                  var ws := WeightsOf(u.value);
                  var lp := Add(f.logP, LogOf(ln, Div(Total(ws), n as real)));
                  && (!(Total(ws) > 0.0) ==> o == Some(Rejected(lp)))
                  && (Total(ws) > 0.0 ==>
                        var m := Resampled(StatesOf(u.value), ws, Total(ws), d, i, n);
                        && (o.Some? <==> m.Some?)
                        && (m.Some? ==> o.value == Running(m.value, ws, lp, ev.time, if ev.kind == Coalescence then f.k + 1 else f.k - 1))))
  {
  }

  /** The filter over one more event is the interval of that event after the filter over the earlier ones. */
  lemma FilterStep(r: Rates, keys: seq<SingleEventType>, valid: Counts -> bool, ln: real -> real, n: nat, S0: int,
                   events: seq<TreeEvent>, d: Draws, i: nat, f: Filtering)
    requires i < |events| && Filter(r, keys, valid, ln, n, S0, events[..i], d) == Some(f) && f.Running?
    ensures |f.states| == n
    ensures Filter(r, keys, valid, ln, n, S0, events[..i + 1], d) == Interval(r, keys, valid, ln, n, f, events[i], d, i)
  {
    assert events[..i + 1][..i] == events[..i];
  }

  /** Once a slot's draw chooses no particle, the resampling of more slots fails too. */
  lemma {:induction false} ResampledSettled(states: seq<Counts>, ws: seq<real>, sum: real, d: Draws, i: nat, m: nat, p: nat)
    requires p <= m && Resampled(states, ws, sum, d, i, p).None?
    ensures Resampled(states, ws, sum, d, i, m).None?
    decreases m
  {
    if p < m {
      ResampledSettled(states, ws, sum, d, i, m - 1, p);
    }
  }

  /** Once the filter fails or stops at an event, the later events change nothing. */
  lemma {:induction false} FilterSettled(r: Rates, keys: seq<SingleEventType>, valid: Counts -> bool, ln: real -> real, n: nat, S0: int,
                                         events: seq<TreeEvent>, d: Draws, i: nat)
    requires i <= |events|
    requires var o := Filter(r, keys, valid, ln, n, S0, events[..i], d); o.None? || o.value.Rejected?
    ensures Filter(r, keys, valid, ln, n, S0, events, d) == Filter(r, keys, valid, ln, n, S0, events[..i], d)
    decreases |events|
  {
    if i < |events| {
      var q := |events| - 1;
      assert events[..q][..i] == events[..i];
      FilterSettled(r, keys, valid, ln, n, S0, events[..q], d, i);
    } else {
      assert events[..i] == events;
    }
  }

  // ---------------------------------------------------------------------
  // The distribution object

  /** A list of distinct state objects, told apart by owner, holding the given counts in order. */
  ghost predicate Holds(ps: seq<EpidemicState>, cs: seq<Counts>, owner: map<EpidemicState, nat>)
    reads ps
  {
    |ps| == |cs| && forall p :: 0 <= p < |ps| ==> ps[p].Value() == cs[p] && ps[p] in owner && owner[ps[p]] == p
  }

  /** How one pass of the loop of updateParticle ends: the interval is over, the program fails, the particle dies, or the loop goes on. */
  datatype Pass = Ended | Failed | Died | Continues

  /** The slot a draw u chooses from the weights: the loop that subtracts the weights from u until it goes below zero. */
  method ChooseSlot(w: seq<real>, u0: real) returns (c: nat)
    ensures c == Choose(w, u0)
  {
    var u := u0;
    c := 0;
    while c < |w|
      invariant c <= |w| && ChooseFrom(w, u, c) == Choose(w, u0)
      decreases |w| - c
    {
      ghost var before := u;
      u := u - w[c];
      if u < 0.0 {
        return;
      }
      ChooseFromSkip(w, before, c);
      c := c + 1;
    }
  }

  /** The sum of the weights, added from the first. */
  method SumOfWeights(ws: seq<real>) returns (sum: real)
    ensures sum == Total(ws)
  {
    sum := 0.0;
    var p := 0;
    while p < |ws|
      invariant p <= |ws| && sum == Prefix(ws, p)
    {
      sum := sum + ws[p];
      p := p + 1;
    }
  }

  /**
   * The SMC tree density: the epidemic model, the cached event list of the
   * tree, the number of particles, and the order in which the model's
   * propensity map lists its types (the key order of a hash map, a
   * parameter here).
   */
  class SMCTreeDensity {
    const model: SIRModelSampling
    const eventList: TreeEventList
    const nParticles: nat
    const keys: seq<SingleEventType>
    var logP: Double

    /** initAndValidate: the inputs kept. */
    constructor(model: SIRModelSampling, eventList: TreeEventList, nParticles: nat, keys: seq<SingleEventType>)
      ensures this.model == model && this.eventList == eventList && this.nParticles == nParticles && this.keys == keys
      ensures logP == Finite(0.0)
    {
      this.model := model;
      this.eventList := eventList;
      this.nParticles := nParticles;
      this.keys := keys;
      logP := Finite(0.0);
    }

    /** The rates of the model. */
    function R(): Rates
    {
      Rates(model.infectionRate, model.recoveryRate, model.samplingProb)
    }

    /** The key order lists the three types, and the model's propensity map has no other keys. */
    ghost predicate Valid()
      reads model
    {
      KeyOrder(keys) && model.propensities.Keys <= Types()
    }

    /** The model's propensity map and total are those of the counts c. */
    ghost predicate Tabled(c: Counts)
      reads model
    {
      && model.propensities.Keys == Types()
      && model.propensities[SingleInfection] == Propensity(R(), c, SingleInfection)
      && model.propensities[SingleRecovery] == Propensity(R(), c, SingleRecovery)
      && model.propensities[SingleSample] == Propensity(R(), c, SingleSample)
      && model.totalPropensity == TotalPropensity(R(), c)
    }

    /** model.calculatePropensities of a state. */
    method CalculatePropensities(state: EpidemicState)
      requires Valid()
      modifies model`propensities, model`totalPropensity
      ensures Valid() && Tabled(state.Value())
    {
      ghost var before := model.propensities;
      model.CalculatePropensities(state);
      TableAgrees(model, before, state.Value());
    }

    /** The loop of updateParticle over the key set: the type the draw u0 picks, or none. */
    method PickEventType(c: Counts, u0: real) returns (o: Option<SingleEventType>)
      requires Valid() && Tabled(c)
      ensures o == PickedType(R(), c, keys, u0)
    {
      ghost var w := KeyWeights(R(), c, keys);
      var u := model.totalPropensity * u0;
      assert u == Scaled(u0, TotalPropensity(R(), c));
      var j := 0;
      while j < |keys|
        invariant j <= |keys| && ChooseFrom(w, u, j) == Choose(w, Scaled(u0, TotalPropensity(R(), c)))
        decreases |keys| - j
      {
        assert keys[j] in Types();
        var p := model.propensities[keys[j]];
        assert p == w[j];
        ghost var before := u;
        u := u - p;
        if u < 0.0 {
          o := Some(keys[j]);
          return;
        }
        ChooseFromSkip(w, before, j);
        j := j + 1;
      }
      o := None;
    }

    /**
     * updateParticle: the state is simulated event by event from startTime,
     * changed in place, until the next waiting time passes the tree event;
     * the weight is the conditional probability of the interval, or 0 when
     * the particle dies. It fails when no type is picked or the steps run
     * out.
     */
    method UpdateParticle(valid: Counts -> bool, state: EpidemicState, startTime: real, lineages: int,
                          ev: TreeEvent, steps: seq<StepDraw>) returns (ok: bool, w: real)
      requires Valid()
      modifies state, model`propensities, model`totalPropensity
      ensures Valid()
      ensures var o := Run(R(), keys, valid, old(state.Value()), startTime, lineages, ev, steps, 1.0);
              (ok <==> o.Some?) && (ok ==> state.Value() == o.value.c && w == o.value.weight)
    {
      var conditionalP := 1.0;
      var t := startTime;
      ghost var goal := Run(R(), keys, valid, state.Value(), t, lineages, ev, steps, conditionalP);
      var i := 0;
      while true
        invariant i <= |steps| && Valid()
        invariant Run(R(), keys, valid, state.Value(), t, lineages, ev, steps[i..], conditionalP) == goal
        decreases |steps| - i
      {
        var pass;
        pass, t, conditionalP := Pass(valid, state, t, lineages, ev, steps[i..], conditionalP);
        match pass
        case Ended =>
          break;
        case Failed =>
          ok, w := false, 0.0;
          return;
        case Died =>
          ok, w := true, 0.0;
          return;
        case Continues =>
          assert steps[i..][1..] == steps[i + 1..];
          i := i + 1;
      }
      w := FinishInterval(valid, state, ev, conditionalP);
      ok := true;
    }

    /**
     * One pass of the loop of updateParticle: the propensities of the
     * state, the waiting time, and unless the interval ends there, the
     * event the draw picks, applied to the state.
     */
    method Pass(valid: Counts -> bool, state: EpidemicState, t: real, lineages: int,
                ev: TreeEvent, steps: seq<StepDraw>, cp: real) returns (pass: Pass, t1: real, cp1: real)
      requires Valid()
      modifies state, model`propensities, model`totalPropensity
      ensures Valid()
      ensures var o := Run(R(), keys, valid, old(state.Value()), t, lineages, ev, steps, cp);
              match pass
              case Ended => state.Value() == old(state.Value()) && cp1 == cp && o == Some(Finish(R(), valid, state.Value(), ev, cp))
              case Failed => o.None?
              case Died => o == Some(Weighed(state.Value(), 0.0))
              case Continues => steps != [] && o == Run(R(), keys, valid, state.Value(), t1, lineages, ev, steps[1..], cp1)
    {
      t1, cp1 := t, cp;
      CalculatePropensities(state);
      if !(model.totalPropensity > 0.0) {
        // the waiting time is infinite, so it passes the tree event
        RunStops(R(), keys, valid, state.Value(), t, lineages, ev, steps, cp);
        return Ended, t1, cp1;
      }
      if steps == [] {
        return Failed, t1, cp1;
      }
      t1 := t1 + steps[0].dt;
      if t1 > ev.time {
        RunStops(R(), keys, valid, state.Value(), t, lineages, ev, steps, cp);
        return Ended, t1, cp1;
      }
      var eventType := PickEventType(state.Value(), steps[0].u);
      if eventType.None? {
        return Failed, t1, cp1;
      }
      var ty := eventType.value;
      ghost var c0 := state.Value();
      model.IncrementState(state, ty);
      if state.I < lineages as real {
        RunKills(R(), keys, valid, c0, t, lineages, ev, steps, cp, ty);
        return Died, t1, cp1;
      }
      if ty == SingleInfection {
        cp1 := cp1 * ProbNoCoalescence(state.I, lineages);
      }
      if ty == SingleSample {
        RunKills(R(), keys, valid, c0, t, lineages, ev, steps, cp, ty);
        return Died, t1, cp1;
      }
      assert cp1 == AfterEvent(cp, ty, state.Value(), lineages);
      RunAdvances(R(), keys, valid, c0, t, lineages, ev, steps, cp, ty);
      pass := Continues;
    }

    /** The tree event at the end of updateParticle, and isValid. */
    method FinishInterval(valid: Counts -> bool, state: EpidemicState, ev: TreeEvent, cp: real) returns (w: real)
      requires Valid()
      modifies state, model`propensities, model`totalPropensity
      ensures Valid()
      ensures Weighed(state.Value(), w) == Finish(R(), valid, old(state.Value()), ev, cp)
    {
      var conditionalP := cp;
      if ev.kind == Coalescence {
        model.IncrementState(state, SingleInfection);
        CalculatePropensities(state);
        conditionalP := conditionalP * (ProbCoalescence(state.I) * model.propensities[SingleInfection]);
      } else {
        model.IncrementState(state, SingleSample);
        CalculatePropensities(state);
        if SingleSample in model.propensities {
          conditionalP := conditionalP * model.propensities[SingleSample];
        }
      }
      w := if valid(state.Value()) then conditionalP else 0.0;
    }

    /** The initial particles of calculateLogP: nParticles new states, each the model's initial state. */
    method InitialParticles() returns (states: seq<EpidemicState>, ghost owner: map<EpidemicState, nat>)
      ensures Holds(states, seq(nParticles, _ => SingleInitialCounts(model.S0)), owner)
      ensures forall p :: 0 <= p < |states| ==> fresh(states[p])
    {
      states, owner := [], map[];
      while |states| < nParticles
        invariant |states| <= nParticles
        invariant forall p :: 0 <= p < |states| ==>
                    && fresh(states[p]) && states[p].Value() == SingleInitialCounts(model.S0)
                    && states[p] in owner && owner[states[p]] == p
      {
        var s := model.GetInitialState();
        owner := owner[s := |states|];
        states := states + [s];
      }
    }

    /**
     * The particle updates of one interval: each state updated in place by
     * updateParticle, its weight appended to the list and added to the
     * sum; it fails when some update fails.
     */
    method UpdateAll(valid: Counts -> bool, states: seq<EpidemicState>, ghost cs: seq<Counts>, ghost owner: map<EpidemicState, nat>,
                     t: real, k: int, ev: TreeEvent, d: Draws, i: nat) returns (ok: bool, weights: seq<real>, sum: real)
      requires Valid() && Holds(states, cs, owner)
      modifies states, model`propensities, model`totalPropensity
      ensures Valid()
      ensures var o := Updates(R(), keys, valid, cs, t, k, ev, d, i);
              && (ok <==> o.Some?)
              && (ok ==> Holds(states, StatesOf(o.value), owner) && weights == WeightsOf(o.value) && sum == Total(weights))
    {
      weights, sum := [], 0.0;
      ghost var us: seq<Weighed> := [];
      var p := 0;
      while p < |states|
        invariant p <= |states| && |us| == p && Valid()
        invariant Updates(R(), keys, valid, cs[..p], t, k, ev, d, i) == Some(us)
        invariant weights == WeightsOf(us) && sum == Total(weights)
        invariant forall q :: 0 <= q < |states| ==> states[q] in owner && owner[states[q]] == q
        invariant forall q :: 0 <= q < p ==> states[q].Value() == us[q].c
        invariant forall q :: p <= q < |states| ==> states[q].Value() == cs[q]
      {
        var okP, w := UpdateParticle(valid, states[p], t, k, ev, d.steps(i, p));
        UpdatesStep(R(), keys, valid, cs, t, k, ev, d, i, p, us);
        if !okP {
          UpdatesSettled(R(), keys, valid, cs, t, k, ev, d, i, p + 1);
          ok := false;
          return;
        }
        WeightsAppend(us, Weighed(states[p].Value(), w));
        us := us + [Weighed(states[p].Value(), w)];
        weights := weights + [w];
        sum := sum + w;
        p := p + 1;
      }
      assert cs[..p] == cs;
      ok := true;
    }

    /**
     * The resampling of calculateLogP: each of the nParticles slots gets a
     * copy of the state its draw, times the sum, chooses from the
     * weights; it fails when a draw chooses no particle.
     */
    method Resample(states: seq<EpidemicState>, ghost cs: seq<Counts>, weights: seq<real>, sum: real, d: Draws, i: nat)
      returns (ok: bool, next: seq<EpidemicState>, ghost owner: map<EpidemicState, nat>)
      requires |states| == |cs| == |weights| && forall p :: 0 <= p < |states| ==> states[p].Value() == cs[p]
      ensures var o := Resampled(cs, weights, sum, d, i, nParticles);
              && (ok <==> o.Some?)
              && (ok ==> Holds(next, o.value, owner) && forall p :: 0 <= p < |next| ==> fresh(next[p]))
    {
      next, owner := [], map[];
      ghost var chosen: seq<Counts> := [];
      while |next| < nParticles
        invariant |next| <= nParticles && |chosen| == |next|
        invariant Resampled(cs, weights, sum, d, i, |next|) == Some(chosen)
        invariant forall p :: 0 <= p < |next| ==>
                    && fresh(next[p]) && next[p].Value() == chosen[p]
                    && next[p] in owner && owner[next[p]] == p
      {
        var choice := ChooseSlot(weights, Scaled(d.picks(i, |next|), sum));
        if choice == |states| {
          ResampledSettled(cs, weights, sum, d, i, nParticles, |next| + 1);
          ok := false;
          return;
        }
        var c := states[choice].Copy();
        chosen := chosen + [cs[choice]];
        owner := owner[c := |next|];
        next := next + [c];
      }
      ok := true;
    }

    /**
     * calculateLogP: the particles are run through the event list and the
     * log of the mean of the last weights is returned; the estimate and the
     * value returned are those of the filter over the event list, and the
     * call fails exactly when the filter does.
     */
    method CalculateLogP(valid: Counts -> bool, ln: real -> real, d: Draws) returns (ok: bool, result: Double)
      requires Valid()
      modifies this`logP, model`propensities, model`totalPropensity, eventList
      ensures Valid()
      ensures var o := Filter(R(), keys, valid, ln, nParticles, model.S0, eventList.eventList, d);
              && (ok <==> o.Some?)
              && (ok ==> result == LogPAsWritten(ln, nParticles, o.value)
                         && logP == (if o.value.Rejected? then o.value.logP else result))
    {
      var events := eventList.GetEventList();
      var stopped, lp, weights;
      ok, stopped, lp, weights := RunEvents(valid, ln, d, events);
      logP := lp;
      if !ok {
        return false, NegInf;
      }
      if stopped {
        return true, NegInf;
      }
      var sum := SumOfWeights(weights);
      logP := LogOf(ln, Div(sum, nParticles as real));
      result := logP;
    }

    /**
     * The event loop of calculateLogP: the particles are started from the
     * initial state and, for each tree event in turn, updated, weighed and
     * resampled, with the estimate summed as it goes.
     */
    method RunEvents(valid: Counts -> bool, ln: real -> real, d: Draws, events: seq<TreeEvent>)
      returns (ok: bool, stopped: bool, lp: Double, weights: seq<real>)
      requires Valid()
      modifies model`propensities, model`totalPropensity
      ensures Valid()
      ensures var o := Filter(R(), keys, valid, ln, nParticles, model.S0, events, d);
              && (ok <==> o.Some?)
              && (ok ==> (stopped <==> o.value.Rejected?) && lp == o.value.logP && (!stopped ==> weights == o.value.weights))
    {
      lp, weights := Finite(0.0), [];
      var states;
      ghost var owner;
      states, owner := InitialParticles();
      ghost var cs := seq(nParticles, _ => SingleInitialCounts(model.S0));
      var t, k := 0.0, 1;
      var i := 0;
      while i < |events|
        invariant i <= |events| && Valid()
        invariant Filter(R(), keys, valid, ln, nParticles, model.S0, events[..i], d) == Some(Running(cs, weights, lp, t, k))
        invariant Holds(states, cs, owner) && forall p :: 0 <= p < |states| ==> fresh(states[p])
      {
        var ev := events[i];
        ghost var f := Running(cs, weights, lp, t, k);
        FilterStep(R(), keys, valid, ln, nParticles, model.S0, events, d, i, f);
        var okI, next, ws;
        ghost var owner2;
        okI, stopped, lp, next, owner2, ws := RunInterval(valid, ln, d, i, ev, states, cs, weights, owner, lp, t, k);
        if !okI || stopped {
          FilterSettled(R(), keys, valid, ln, nParticles, model.S0, events, d, i + 1);
          ok := okI;
          return;
        }
        states, owner, cs := next, owner2, Interval(R(), keys, valid, ln, nParticles, f, ev, d, i).value.states;
        weights := ws;
        k := if ev.kind == Coalescence then k + 1 else k - 1;
        t := ev.time;
        i := i + 1;
      }
      assert events[..i] == events;
      ok, stopped := true, false;
    }

    /**
     * One pass of the event loop of calculateLogP: every particle updated,
     * log(sum / n) added to the estimate, and unless the sum is not
     * positive, the particles resampled into a new list.
     */
    method RunInterval(valid: Counts -> bool, ln: real -> real, d: Draws, i: nat, ev: TreeEvent,
                       states: seq<EpidemicState>, ghost cs: seq<Counts>, ghost w0: seq<real>, ghost owner: map<EpidemicState, nat>,
                       lp: Double, t: real, k: int)
      returns (ok: bool, stopped: bool, lp1: Double, next: seq<EpidemicState>, ghost owner2: map<EpidemicState, nat>, ws: seq<real>)
      requires Valid() && Holds(states, cs, owner) && |cs| == nParticles
      modifies states, model`propensities, model`totalPropensity
      ensures Valid()
      ensures var o := Interval(R(), keys, valid, ln, nParticles, Running(cs, w0, lp, t, k), ev, d, i);
              && (ok <==> o.Some?)
              && (ok ==> && (stopped <==> o.value.Rejected?) && lp1 == o.value.logP
                         && (!stopped ==> Holds(next, o.value.states, owner2) && (forall p :: 0 <= p < |next| ==> fresh(next[p]))
                                          && ws == o.value.weights && o.value.t == ev.time
                                          && o.value.k == (if ev.kind == Coalescence then k + 1 else k - 1)))
    {
      var okU, sum;
      okU, ws, sum := UpdateAll(valid, states, cs, owner, t, k, ev, d, i);
      IntervalOutcome(R(), keys, valid, ln, nParticles, Running(cs, w0, lp, t, k), ev, d, i);
      stopped, lp1, next, owner2 := false, lp, [], map[];
      if !okU {
        ok := false;
        return;
      }
      ghost var us := Updates(R(), keys, valid, cs, t, k, ev, d, i).value;
      lp1 := Add(lp, LogOf(ln, Div(sum, nParticles as real)));
      if !(sum > 0.0) {
        ok, stopped := true, true;
        return;
      }
      var okR;
      okR, next, owner2 := Resample(states, StatesOf(us), ws, sum, d, i);
      ok, stopped := okR, false;
    }
  }
}
