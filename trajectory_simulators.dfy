/**
 * The direct stochastic simulators of an epidemic trajectory: the SIR
 * Gillespie loop shared by the epidemic and SIR trajectory simulators,
 * which runs until nobody is infected, and the birth-death loop, which runs
 * until the next event would fall after the epidemic's duration.  Each
 * step's exponential waiting time and uniform choice are the entries of the
 * draw sequences `dts` and `us`.
 */
module TrajectorySimulators {
  import opened Wrappers
  import opened EpidemicState
  import opened EpidemicEvent

  /** One simulation step: the event recorded and the compartment sizes after it. */
  datatype Step = Step(event: EpidemicEvent, after: Counts)

  predicate Whole(x: real)
  {
    x.Floor as real == x
  }

  /** The sizes the SIR loop works on: whole, non-negative numbers. */
  predicate Population(c: Counts)
  {
    Whole(c.S) && Whole(c.I) && Whole(c.R) && c.S >= 0.0 && c.I >= 0.0
  }

  /** Twice the susceptibles plus the infecteds: every SIR step lowers it by one. */
  function Potential(c: Counts): nat
    requires Population(c)
  {
    (2.0 * c.S + c.I).Floor
  }

  predicate Draws(dts: seq<real>, us: seq<real>)
  {
    (forall k :: 0 <= k < |dts| ==> dts[k] >= 0.0) && (forall k :: 0 <= k < |us| ==> 0.0 <= us[k] < 1.0)
  }

  predicate Rates(a: real, b: real)
  {
    a >= 0.0 && b >= 0.0
  }

  // ---------------------------------------------------------------------
  // The SIR loop

  /** The state after one SIR step: an infection when u times the total propensity is below the infection propensity, else a recovery. */
  /** The choice of the SIR loop: u times the total propensity falls below the infection propensity. */
  predicate InfectionChosen(c: Counts, beta: real, gamma: real, u: real)
  {
    var infProp := c.S * c.I * beta;
    var recProp := c.I * gamma;
    var totalProp := infProp + recProp;
    u * totalProp < infProp
  }

  function SIRStep(c: Counts, beta: real, gamma: real, u: real): (r: (EventType, Counts))
  {
    if InfectionChosen(c, beta, gamma, u) then (Infection, c.(S := c.S - 1.0, I := c.I + 1.0))
    else (Recovery, c.(I := c.I - 1.0, R := c.R + 1.0))
  }

  /** A step from a population with an infected keeps a population, keeps S + I + R and lowers the potential by one. */
  lemma SIRStepMeaning(c: Counts, beta: real, gamma: real, u: real)
    requires Population(c) && c.I >= 1.0 && Rates(beta, gamma) && 0.0 <= u < 1.0
    ensures var (k, d) := SIRStep(c, beta, gamma, u);
            Population(d) && d.S + d.I + d.R == c.S + c.I + c.R
            && Potential(d) + 1 == Potential(c)
            && (k == Infection ==> d == c.(S := c.S - 1.0, I := c.I + 1.0) && c.S >= 1.0)
            && (k == Recovery ==> d == c.(I := c.I - 1.0, R := c.R + 1.0))
  {
    var infProp := c.S * c.I * beta;
    var recProp := c.I * gamma;
    assert c.S * c.I >= 0.0;
    assert infProp >= 0.0 && recProp >= 0.0;
    assert u * (infProp + recProp) >= 0.0;
    if c.S == 0.0 {
      assert infProp == 0.0;
    }
    var (k, d) := SIRStep(c, beta, gamma, u);
    if k == Infection {
      assert c.S >= 1.0 by {
        assert c.S != 0.0;
        assert c.S.Floor >= 1;
      }
      assert (c.S - 1.0).Floor == c.S.Floor - 1;
      assert (c.I + 1.0).Floor == c.I.Floor + 1;
      assert (2.0 * d.S + d.I).Floor == (2.0 * c.S + c.I).Floor - 1;
    } else {
      assert (c.I - 1.0).Floor == c.I.Floor - 1;
      assert (c.R + 1.0).Floor == c.R.Floor + 1;
      assert (2.0 * d.S + d.I).Floor == (2.0 * c.S + c.I).Floor - 1;
    }
  }

  /** What the requirement on a run from step `i` asks: a population, non-negative rates and a draw for every step still possible. */
  predicate SIRReady(c: Counts, beta: real, gamma: real, dts: seq<real>, us: seq<real>, i: nat)
  {
    Population(c) && Rates(beta, gamma) && Draws(dts, us)
    && i + Potential(c) <= |dts| && i + Potential(c) <= |us|
  }

  /** The steps of the SIR loop from sizes `c` at time `t`, using the draws from index `i` on. */
  function SIRRun(c: Counts, t: real, beta: real, gamma: real, dts: seq<real>, us: seq<real>, i: nat): seq<Step>
    requires SIRReady(c, beta, gamma, dts, us, i)
    decreases Potential(c)
  {
    if c.I <= 0.0 then []
    else
      SIRStepMeaning(c, beta, gamma, us[i]);
      var (k, d) := SIRStep(c, beta, gamma, us[i]);
      [Step(EpidemicEvent(t + dts[i], Some(k), 1), d)] + SIRRun(d, t + dts[i], beta, gamma, dts, us, i + 1)
  }

  /** The state before step `k` of a run from `c`. */
  function Before(c: Counts, run: seq<Step>, k: nat): Counts
    requires k <= |run|
  {
    if k == 0 then c else run[k - 1].after
  }

  /** One step of the SIR loop: the first recorded step and the run from the state after it. */
  lemma SIRRunUnfold(c: Counts, t: real, beta: real, gamma: real, dts: seq<real>, us: seq<real>, i: nat)
    requires SIRReady(c, beta, gamma, dts, us, i) && c.I > 0.0
    ensures var (k, d) := SIRStep(c, beta, gamma, us[i]);
            SIRReady(d, beta, gamma, dts, us, i + 1)
            && SIRRun(c, t, beta, gamma, dts, us, i)
               == [Step(EpidemicEvent(t + dts[i], Some(k), 1), d)] + SIRRun(d, t + dts[i], beta, gamma, dts, us, i + 1)
  {
    SIRStepMeaning(c, beta, gamma, us[i]);
  }

  /** The run ends with nobody infected, after at most Potential(c) steps. */
  lemma {:induction false} SIRRunEnds(c: Counts, t: real, beta: real, gamma: real, dts: seq<real>, us: seq<real>, i: nat)
    requires SIRReady(c, beta, gamma, dts, us, i)
    ensures var run := SIRRun(c, t, beta, gamma, dts, us, i);
            Before(c, run, |run|).I == 0.0 && |run| <= Potential(c)
    decreases Potential(c)
  {
    if c.I > 0.0 {
      SIRStepMeaning(c, beta, gamma, us[i]);
      SIRRunUnfold(c, t, beta, gamma, dts, us, i);
      var (kind, d) := SIRStep(c, beta, gamma, us[i]);
      SIRRunEnds(d, t + dts[i], beta, gamma, dts, us, i + 1);
      var rest := SIRRun(d, t + dts[i], beta, gamma, dts, us, i + 1);
      var run := SIRRun(c, t, beta, gamma, dts, us, i);
      assert Before(c, run, |run|) == Before(d, rest, |rest|);
    }
  }

  /**
   * Every state of the run is a population with the total S + I + R of the
   * start, and each step is an infection (S-1, I+1) or a recovery
   * (I-1, R+1) of the state before it.
   */
  lemma {:induction false} SIRRunSteps(c: Counts, t: real, beta: real, gamma: real, dts: seq<real>, us: seq<real>, i: nat)
    requires SIRReady(c, beta, gamma, dts, us, i)
    ensures var run := SIRRun(c, t, beta, gamma, dts, us, i);
            (forall k :: 0 <= k < |run| ==>
               Population(run[k].after) && run[k].after.S + run[k].after.I + run[k].after.R == c.S + c.I + c.R)
            && (forall k :: 0 <= k < |run| ==> SIRChange(Before(c, run, k), run[k]))
    decreases Potential(c)
  {
    if c.I > 0.0 {
      SIRStepMeaning(c, beta, gamma, us[i]);
      SIRRunUnfold(c, t, beta, gamma, dts, us, i);
      var (kind, d) := SIRStep(c, beta, gamma, us[i]);
      SIRRunSteps(d, t + dts[i], beta, gamma, dts, us, i + 1);
      var rest := SIRRun(d, t + dts[i], beta, gamma, dts, us, i + 1);
      var run := SIRRun(c, t, beta, gamma, dts, us, i);
      forall k | 1 <= k < |run|
        ensures run[k] == rest[k - 1] && Before(c, run, k) == Before(d, rest, k - 1)
      {
      }
    }
  }

  /** One recorded step is an infection or a recovery of the state before it. */
  predicate SIRChange(before: Counts, step: Step)
  {
    step.event.multiplicity == 1
    && ((step.event.kind == Some(Infection) && step.after == before.(S := before.S - 1.0, I := before.I + 1.0))
        || (step.event.kind == Some(Recovery) && step.after == before.(I := before.I - 1.0, R := before.R + 1.0)))
  }

  /** Event times start after `t` and never decrease. */
  lemma {:induction false} SIRRunTimes(c: Counts, t: real, beta: real, gamma: real, dts: seq<real>, us: seq<real>, i: nat)
    requires SIRReady(c, beta, gamma, dts, us, i)
    ensures var run := SIRRun(c, t, beta, gamma, dts, us, i);
            (forall k :: 0 <= k < |run| ==> t <= run[k].event.time)
            && (forall k :: 0 <= k < |run| - 1 ==> run[k].event.time <= run[k + 1].event.time)
    decreases Potential(c)
  {
    if c.I > 0.0 {
      SIRStepMeaning(c, beta, gamma, us[i]);
      SIRRunUnfold(c, t, beta, gamma, dts, us, i);
      var (kind, d) := SIRStep(c, beta, gamma, us[i]);
      SIRRunTimes(d, t + dts[i], beta, gamma, dts, us, i + 1);
      var rest := SIRRun(d, t + dts[i], beta, gamma, dts, us, i + 1);
      var run := SIRRun(c, t, beta, gamma, dts, us, i);
      assert dts[i] >= 0.0;
      forall k | 1 <= k < |run|
        ensures run[k] == rest[k - 1]
      {
      }
    }
  }

  /** The loop's bookkeeping: after one more step, the recorded steps and the rest of the run still make up the whole run. */
  lemma SIRAdvance(done: seq<Step>, c: Counts, t: real, beta: real, gamma: real, dts: seq<real>, us: seq<real>, i: nat, full: seq<Step>,
                    kind: EventType, after: Counts)
    requires SIRReady(c, beta, gamma, dts, us, i) && c.I > 0.0
    requires done + SIRRun(c, t, beta, gamma, dts, us, i) == full
    requires (kind, after) == SIRStep(c, beta, gamma, us[i])
    ensures SIRReady(after, beta, gamma, dts, us, i + 1) && Potential(after) < Potential(c)
    ensures var step := Step(EpidemicEvent(t + dts[i], Some(kind), 1), after);
            (done + [step]) + SIRRun(after, t + dts[i], beta, gamma, dts, us, i + 1) == full
            && EventsOf(done + [step]) == EventsOf(done) + [step.event]
            && StatesOf(done + [step]) == StatesOf(done) + [after]
  {
    SIRStepMeaning(c, beta, gamma, us[i]);
    SIRRunUnfold(c, t, beta, gamma, dts, us, i);
    OfAppend(done, Step(EpidemicEvent(t + dts[i], Some(kind), 1), after));
  }

  /** The update in the body of the SIR loop: an infection moves one susceptible to infected, a recovery one infected to recovered. */
  method ApplySIRStep(state: EpidemicState, beta: real, gamma: real, u: real) returns (kind: EventType)
    modifies state
    ensures (kind, state.Value()) == SIRStep(old(state.Value()), beta, gamma, u)
  {
    if InfectionChosen(state.Value(), beta, gamma, u) {
      kind := Infection;
      state.S := state.S - 1.0;
      state.I := state.I + 1.0;
    } else {
      kind := Recovery;
      state.I := state.I - 1.0;
      state.R := state.R + 1.0;
    }
  }

  function EventsOf(run: seq<Step>): (r: seq<EpidemicEvent>)
    ensures |r| == |run|
  {
    seq(|run|, k requires 0 <= k < |run| => run[k].event)
  }

  function StatesOf(run: seq<Step>): (r: seq<Counts>)
    ensures |r| == |run|
  {
    seq(|run|, k requires 0 <= k < |run| => run[k].after)
  }

  lemma OfAppend(run: seq<Step>, s: Step)
    ensures EventsOf(run + [s]) == EventsOf(run) + [s.event]
    ensures StatesOf(run + [s]) == StatesOf(run) + [s.after]
  {
    assert forall k :: 0 <= k < |run| ==> (run + [s])[k] == run[k];
  }

  /** EpidemicTrajectorySimulator: simulates from its initial state when initialised. */
  class EpidemicTrajectorySimulator {
    var eventList: seq<EpidemicEvent>
    var initialState: EpidemicState
    var stateListDirty: bool
    var infectionRate: real
    var recoveryRate: real

    /** initAndValidate: the rates, the initial state (S0, 1, 0), and one simulation. */
    constructor(S0: nat, infectionRate: real, recoveryRate: real, dts: seq<real>, us: seq<real>)
      requires SIRReady(Counts(S0 as real, 1.0, 0.0), infectionRate, recoveryRate, dts, us, 0)
      ensures this.infectionRate == infectionRate && this.recoveryRate == recoveryRate
      ensures initialState.Value() == Counts(S0 as real, 1.0, 0.0)
      ensures eventList == EventsOf(SIRRun(Counts(S0 as real, 1.0, 0.0), 0.0, infectionRate, recoveryRate, dts, us, 0))
      ensures stateListDirty
    {
      this.infectionRate := infectionRate;
      this.recoveryRate := recoveryRate;
      var init := new EpidemicState(S0 as real, 1.0, 0.0);
      initialState := init;
      stateListDirty := true;
      eventList := [];
      new;
      Simulate(dts, us);
    }

    /** simulate: the SIR loop on a copy of the initial state, recording one event per step. */
    method Simulate(dts: seq<real>, us: seq<real>)
      requires SIRReady(initialState.Value(), infectionRate, recoveryRate, dts, us, 0)
      modifies this`eventList, this`stateListDirty
      ensures eventList == EventsOf(SIRRun(initialState.Value(), 0.0, infectionRate, recoveryRate, dts, us, 0))
      ensures stateListDirty
    {
      eventList := [];
      var thisState := initialState.Copy();
      var t := 0.0;
      ghost var done: seq<Step> := [];
      ghost var full := SIRRun(initialState.Value(), 0.0, infectionRate, recoveryRate, dts, us, 0);
      var i: nat := 0;
      ghost var cur := thisState.Value();
      while thisState.I > 0.0
        invariant thisState.Value() == cur && thisState != initialState
        invariant SIRReady(cur, infectionRate, recoveryRate, dts, us, i)
        invariant done + SIRRun(cur, t, infectionRate, recoveryRate, dts, us, i) == full
        invariant eventList == EventsOf(done)
        decreases Potential(cur)
      {
        var before := thisState.Value();
        var kind := ApplySIRStep(thisState, infectionRate, recoveryRate, us[i]);
        var after := thisState.Value();
        SIRAdvance(done, before, t, infectionRate, recoveryRate, dts, us, i, full, kind, after);
        t := t + dts[i];
        var nextEvent := EpidemicEvent(t, Some(kind), 1);
        var step := Step(nextEvent, after);
        eventList := eventList + [nextEvent];
        done := done + [step];
        i := i + 1;
        cur := after;
      }
      stateListDirty := true;
    }
  }

  /** SIRTrajectorySimulator: the same loop, also recording the state after every step. */
  class SIRTrajectorySimulator {
    var eventList: seq<EpidemicEvent>
    var stateList: seq<Counts>
    var infectionRate: real
    var recoveryRate: real

    constructor(S0: nat, infectionRate: real, recoveryRate: real, dts: seq<real>, us: seq<real>)
      requires SIRReady(Counts(S0 as real, 1.0, 0.0), infectionRate, recoveryRate, dts, us, 0)
      ensures this.infectionRate == infectionRate && this.recoveryRate == recoveryRate
      ensures var run := SIRRun(Counts(S0 as real, 1.0, 0.0), 0.0, infectionRate, recoveryRate, dts, us, 0);
              eventList == EventsOf(run) && stateList == [Counts(S0 as real, 1.0, 0.0)] + StatesOf(run)
    {
      this.infectionRate := infectionRate;
      this.recoveryRate := recoveryRate;
      eventList := [];
      stateList := [];
      new;
      Simulate(S0, dts, us);
    }

    /** simulate: starts from (S0, 1, 0) and appends one event and one state copy per step. */
    method Simulate(S0: nat, dts: seq<real>, us: seq<real>)
      requires SIRReady(Counts(S0 as real, 1.0, 0.0), infectionRate, recoveryRate, dts, us, 0)
      modifies this`eventList, this`stateList
      ensures var run := SIRRun(Counts(S0 as real, 1.0, 0.0), 0.0, infectionRate, recoveryRate, dts, us, 0);
              eventList == EventsOf(run) && stateList == [Counts(S0 as real, 1.0, 0.0)] + StatesOf(run)
    {
      eventList := [];
      stateList := [];
      var thisState := new EpidemicState(S0 as real, 1.0, 0.0);
      ghost var init := thisState.Value();
      var first := thisState.Copy();
      stateList := stateList + [first.Value()];
      var t := 0.0;
      ghost var done: seq<Step> := [];
      ghost var full := SIRRun(init, 0.0, infectionRate, recoveryRate, dts, us, 0);
      var i: nat := 0;
      ghost var cur := init;
      while thisState.I > 0.0
        invariant thisState.Value() == cur
        invariant SIRReady(cur, infectionRate, recoveryRate, dts, us, i)
        invariant done + SIRRun(cur, t, infectionRate, recoveryRate, dts, us, i) == full
        invariant eventList == EventsOf(done) && stateList == [init] + StatesOf(done)
        decreases Potential(cur)
      {
        var before := thisState.Value();
        var kind := ApplySIRStep(thisState, infectionRate, recoveryRate, us[i]);
        var after := thisState.Value();
        SIRAdvance(done, before, t, infectionRate, recoveryRate, dts, us, i, full, kind, after);
        t := t + dts[i];
        var nextEvent := EpidemicEvent(t, Some(kind), 1);
        var copy := thisState.Copy();
        var step := Step(nextEvent, after);
        eventList := eventList + [nextEvent];
        stateList := stateList + [copy.Value()];
        done := done + [step];
        i := i + 1;
        cur := after;
      }
    }
  }

  /** One step and one state per event, so the state list is one longer than the event list, and it ends with nobody infected. */
  lemma SIRTrajectoryShape(S0: nat, beta: real, gamma: real, dts: seq<real>, us: seq<real>)
    requires SIRReady(Counts(S0 as real, 1.0, 0.0), beta, gamma, dts, us, 0)
    ensures var c := Counts(S0 as real, 1.0, 0.0);
            var run := SIRRun(c, 0.0, beta, gamma, dts, us, 0);
            var states := [c] + StatesOf(run);
            |states| == |EventsOf(run)| + 1
            && states[|states| - 1].I == 0.0
            && states[|states| - 1].R == (S0 + 1) as real - states[|states| - 1].S
            && (forall k :: 0 <= k < |states| ==> states[k].S >= 0.0)
  {
    var c := Counts(S0 as real, 1.0, 0.0);
    SIRRunEnds(c, 0.0, beta, gamma, dts, us, 0);
    SIRRunSteps(c, 0.0, beta, gamma, dts, us, 0);
    var run := SIRRun(c, 0.0, beta, gamma, dts, us, 0);
    var states := [c] + StatesOf(run);
    assert forall k :: 1 <= k < |states| ==> states[k] == run[k - 1].after;
    assert states[|states| - 1] == Before(c, run, |run|);
  }

  // ---------------------------------------------------------------------
  // The birth-death loop

  /** The total of the draws from index `i` on. */
  function SumFrom(dts: seq<real>, i: nat): real
    decreases |dts| - i
  {
    if i >= |dts| then 0.0 else dts[i] + SumFrom(dts, i + 1)
  }

  /** What a birth-death run from step `i` asks: the draws from there on reach past the duration. */
  predicate BDReady(c: Counts, t: real, birth: real, death: real, duration: real, dts: seq<real>, us: seq<real>, i: nat)
  {
    Rates(birth, death) && Draws(dts, us) && c.I >= 0.0 && Whole(c.I)
    && i < |dts| && |dts| <= |us| && t + SumFrom(dts, i) > duration
  }

  /** The birth-death loop stops when the total propensity is zero (an exponential draw of rate zero is infinite) or the next event would come after the duration. */
  predicate BDHalts(c: Counts, t: real, birth: real, death: real, duration: real, dt: real)
  {
    c.I * birth + c.I * death == 0.0 || t + dt > duration
  }

  /** The choice of the birth-death loop: u times the total propensity falls below the birth propensity. */
  predicate BirthChosen(c: Counts, birth: real, death: real, u: real)
  {
    var infProp := c.I * birth;
    var recProp := c.I * death;
    var totalProp := infProp + recProp;
    u * totalProp < infProp
  }

  /** One birth-death step: a birth (I+1) or a death (I-1). */
  function BDStep(c: Counts, birth: real, death: real, u: real): (EventType, Counts)
  {
    if BirthChosen(c, birth, death, u) then (Infection, c.(I := c.I + 1.0)) else (Recovery, c.(I := c.I - 1.0))
  }

  /** The steps of the birth-death loop from sizes `c` at time `t`, using the draws from index `i` on. */
  function BDRun(c: Counts, t: real, birth: real, death: real, duration: real, dts: seq<real>, us: seq<real>, i: nat): seq<Step>
    requires BDReady(c, t, birth, death, duration, dts, us, i)
    decreases |dts| - i
  {
    if BDHalts(c, t, birth, death, duration, dts[i]) then []
    else
      BDStepReady(c, t, birth, death, duration, dts, us, i);
      var (kind, d) := BDStep(c, birth, death, us[i]);
      [Step(EpidemicEvent(t + dts[i], Some(kind), 1), d)] + BDRun(d, t + dts[i], birth, death, duration, dts, us, i + 1)
  }

  /** A step that does not halt leaves a state ready for the next step, with one infected fewer or more, never below zero. */
  lemma BDStepReady(c: Counts, t: real, birth: real, death: real, duration: real, dts: seq<real>, us: seq<real>, i: nat)
    requires BDReady(c, t, birth, death, duration, dts, us, i)
    requires !BDHalts(c, t, birth, death, duration, dts[i])
    ensures var (kind, d) := BDStep(c, birth, death, us[i]);
            BDReady(d, t + dts[i], birth, death, duration, dts, us, i + 1)
            && t <= t + dts[i] <= duration && d.I >= 0.0
            && BDChange(c, Step(EpidemicEvent(t + dts[i], Some(kind), 1), d))
  {
    assert SumFrom(dts, i) == dts[i] + SumFrom(dts, i + 1);
    assert dts[i] >= 0.0;
    assert c.I != 0.0;
    assert c.I >= 1.0 by {
      assert c.I.Floor >= 1;
    }
    assert (c.I - 1.0).Floor == c.I.Floor - 1;
    assert (c.I + 1.0).Floor == c.I.Floor + 1;
  }

  /** The update in the body of the birth-death loop: a birth adds an infected, a death removes one. */
  method ApplyBDStep(state: EpidemicState, birth: real, death: real, u: real) returns (kind: EventType)
    modifies state
    ensures (kind, state.Value()) == BDStep(old(state.Value()), birth, death, u)
  {
    if BirthChosen(state.Value(), birth, death, u) {
      kind := Infection;
      state.I := state.I + 1.0;
    } else {
      kind := Recovery;
      state.I := state.I - 1.0;
    }
  }

  /** One step of the birth-death loop: the first recorded step and the run from the state after it. */
  lemma BDRunUnfold(c: Counts, t: real, birth: real, death: real, duration: real, dts: seq<real>, us: seq<real>, i: nat)
    requires BDReady(c, t, birth, death, duration, dts, us, i)
    requires !BDHalts(c, t, birth, death, duration, dts[i])
    ensures var (kind, d) := BDStep(c, birth, death, us[i]);
            BDReady(d, t + dts[i], birth, death, duration, dts, us, i + 1)
            && BDRun(c, t, birth, death, duration, dts, us, i)
               == [Step(EpidemicEvent(t + dts[i], Some(kind), 1), d)] + BDRun(d, t + dts[i], birth, death, duration, dts, us, i + 1)
  {
    BDStepReady(c, t, birth, death, duration, dts, us, i);
  }

  /** Every event of a birth-death run falls after `t` and no later than the duration, and times never decrease. */
  lemma {:induction false} BDRunTimes(c: Counts, t: real, birth: real, death: real, duration: real, dts: seq<real>, us: seq<real>, i: nat)
    requires BDReady(c, t, birth, death, duration, dts, us, i)
    ensures var run := BDRun(c, t, birth, death, duration, dts, us, i);
            (forall k :: 0 <= k < |run| ==> t <= run[k].event.time <= duration)
            && (forall k :: 0 <= k < |run| - 1 ==> run[k].event.time <= run[k + 1].event.time)
    decreases |dts| - i
  {
    if !BDHalts(c, t, birth, death, duration, dts[i]) {
      BDStepReady(c, t, birth, death, duration, dts, us, i);
      BDRunUnfold(c, t, birth, death, duration, dts, us, i);
      var (kind, d) := BDStep(c, birth, death, us[i]);
      BDRunTimes(d, t + dts[i], birth, death, duration, dts, us, i + 1);
      var rest := BDRun(d, t + dts[i], birth, death, duration, dts, us, i + 1);
      var run := BDRun(c, t, birth, death, duration, dts, us, i);
      forall k | 1 <= k < |run|
        ensures run[k] == rest[k - 1]
      {
      }
    }
  }

  /** Each step of a birth-death run is a birth (I+1) or a death (I-1) of the state before it that leaves S and R alone, and the infecteds stay non-negative. */
  lemma {:induction false} BDRunSteps(c: Counts, t: real, birth: real, death: real, duration: real, dts: seq<real>, us: seq<real>, i: nat)
    requires BDReady(c, t, birth, death, duration, dts, us, i)
    ensures var run := BDRun(c, t, birth, death, duration, dts, us, i);
            forall k :: 0 <= k < |run| ==> BDChange(Before(c, run, k), run[k]) && run[k].after.I >= 0.0
    decreases |dts| - i
  {
    if !BDHalts(c, t, birth, death, duration, dts[i]) {
      BDStepReady(c, t, birth, death, duration, dts, us, i);
      BDRunUnfold(c, t, birth, death, duration, dts, us, i);
      var (kind, d) := BDStep(c, birth, death, us[i]);
      BDRunSteps(d, t + dts[i], birth, death, duration, dts, us, i + 1);
      var rest := BDRun(d, t + dts[i], birth, death, duration, dts, us, i + 1);
      var run := BDRun(c, t, birth, death, duration, dts, us, i);
      forall k | 1 <= k < |run|
        ensures run[k] == rest[k - 1] && Before(c, run, k) == Before(d, rest, k - 1)
      {
      }
    }
  }

  /** The loop's bookkeeping for the birth-death loop. */
  lemma BDAdvance(done: seq<Step>, c: Counts, t: real, birth: real, death: real, duration: real, dts: seq<real>, us: seq<real>, i: nat, full: seq<Step>,
                   kind: EventType, after: Counts)
    requires BDReady(c, t, birth, death, duration, dts, us, i)
    requires !BDHalts(c, t, birth, death, duration, dts[i])
    requires done + BDRun(c, t, birth, death, duration, dts, us, i) == full
    requires (kind, after) == BDStep(c, birth, death, us[i])
    ensures BDReady(after, t + dts[i], birth, death, duration, dts, us, i + 1)
    ensures var step := Step(EpidemicEvent(t + dts[i], Some(kind), 1), after);
            (done + [step]) + BDRun(after, t + dts[i], birth, death, duration, dts, us, i + 1) == full
            && EventsOf(done + [step]) == EventsOf(done) + [step.event]
            && StatesOf(done + [step]) == StatesOf(done) + [after]
  {
    BDRunUnfold(c, t, birth, death, duration, dts, us, i);
    OfAppend(done, Step(EpidemicEvent(t + dts[i], Some(kind), 1), after));
  }

  /** One recorded birth-death step: a birth or a death of the state before it. */
  predicate BDChange(before: Counts, step: Step)
  {
    step.event.multiplicity == 1
    && ((step.event.kind == Some(Infection) && step.after == before.(I := before.I + 1.0))
        || (step.event.kind == Some(Recovery) && step.after == before.(I := before.I - 1.0)))
  }

  /** BirthDeathTrajectorySimulator: a birth-death trajectory over a fixed duration. */
  class BirthDeathTrajectorySimulator {
    var eventList: seq<EpidemicEvent>
    var stateList: seq<Counts>
    var birthRate: real
    var deathRate: real
    var duration: real

    constructor(birthRate: real, deathRate: real, duration: real, dts: seq<real>, us: seq<real>)
      requires BDReady(Counts(0.0, 1.0, 0.0), 0.0, birthRate, deathRate, duration, dts, us, 0)
      ensures this.birthRate == birthRate && this.deathRate == deathRate && this.duration == duration
      ensures var run := BDRun(Counts(0.0, 1.0, 0.0), 0.0, birthRate, deathRate, duration, dts, us, 0);
              eventList == EventsOf(run) && stateList == [Counts(0.0, 1.0, 0.0)] + StatesOf(run)
    {
      this.birthRate := birthRate;
      this.deathRate := deathRate;
      this.duration := duration;
      eventList := [];
      stateList := [];
      new;
      Simulate(dts, us);
    }

    /** simulate: starts from (0, 1, 0); the loop leaves as soon as the clock passes the duration. */
    method Simulate(dts: seq<real>, us: seq<real>)
      requires BDReady(Counts(0.0, 1.0, 0.0), 0.0, birthRate, deathRate, duration, dts, us, 0)
      modifies this`eventList, this`stateList
      ensures var run := BDRun(Counts(0.0, 1.0, 0.0), 0.0, birthRate, deathRate, duration, dts, us, 0);
              eventList == EventsOf(run) && stateList == [Counts(0.0, 1.0, 0.0)] + StatesOf(run)
    {
      eventList := [];
      stateList := [];
      var thisState := new EpidemicState(0.0, 1.0, 0.0);
      ghost var init := thisState.Value();
      var first := thisState.Copy();
      stateList := stateList + [first.Value()];
      var t := 0.0;
      ghost var done: seq<Step> := [];
      var i: nat := 0;
      ghost var full := BDRun(init, 0.0, birthRate, deathRate, duration, dts, us, 0);
      ghost var cur := init;
      while true
        invariant thisState.Value() == cur
        invariant BDReady(cur, t, birthRate, deathRate, duration, dts, us, i)
        invariant done + BDRun(cur, t, birthRate, deathRate, duration, dts, us, i) == full
        invariant eventList == EventsOf(done) && stateList == [init] + StatesOf(done)
        decreases |dts| - i
      {
        var before := thisState.Value();
        if BDHalts(before, t, birthRate, deathRate, duration, dts[i]) {
          t := duration;
          break;
        }
        var kind := ApplyBDStep(thisState, birthRate, deathRate, us[i]);
        var after := thisState.Value();
        BDAdvance(done, before, t, birthRate, deathRate, duration, dts, us, i, full, kind, after);
        t := t + dts[i];
        var nextEvent := EpidemicEvent(t, Some(kind), 1);
        var copy := thisState.Copy();
        var step := Step(nextEvent, after);
        eventList := eventList + [nextEvent];
        stateList := stateList + [copy.Value()];
        done := done + [step];
        i := i + 1;
        cur := after;
      }
    }
  }
}
