/**
 * The compartment models: their initial states, their propensities and
 * the state change each event type causes.  The SIS, SIR and birth-death
 * models of the models package take their rates from the epidemic model's
 * rate cache and events with a multiplicity; the SIR-with-sampling, the
 * SIR-with-sample-events and the original SIR model keep their own
 * propensity table and apply single events.
 */
module CompartmentModels {
  import opened EpidemicState
  import EpidemicModel

  // ---------------------------------------------------------------------
  // The models package: SIS, SIR and birth-death

  /** The event types the models package switches on. */
  datatype RateEventType = Infection | Recovery | RhoSample | PsiSample | PsiSampleRemove | PsiSampleNoRemove | OtherSample

  datatype RateEvent = RateEvent(kind: RateEventType, multiplicity: int)

  /** Which model, with the initial number of susceptibles where it has one. */
  datatype TrajectoryModel = SIS(S0: int) | SIR(S0: int) | BirthDeath

  /** getInitialState: a single infected, nobody removed; the birth-death model has no susceptibles. */
  function InitialCounts(m: TrajectoryModel): (c: Counts)
    ensures c.I == 1.0 && c.R == 0.0
    ensures c.S == if m.BirthDeath? then 0.0 else m.S0 as real
  {
    match m
    case SIS(s0) => Counts(s0 as real, 1.0, 0.0)
    case SIR(s0) => Counts(s0 as real, 1.0, 0.0)
    case BirthDeath => Counts(0.0, 1.0, 0.0)
  }

  /** calculateInfectionPropensity, with `rate` the infection rate of the state's interval. */
  function InfectionPropensity(m: TrajectoryModel, rate: real, c: Counts): (p: real)
    ensures rate >= 0.0 && c.S >= 0.0 && c.I >= 0.0 ==> p >= 0.0
    ensures c.I == 0.0 ==> p == 0.0
    ensures !m.BirthDeath? && c.S == 0.0 ==> p == 0.0
  {
    if m.BirthDeath? then rate * c.I else rate * c.S * c.I
  }

  /** calculateRecoveryPropensity, the same in all three models. */
  function RecoveryPropensity(rate: real, c: Counts): (p: real)
    ensures rate >= 0.0 && c.I >= 0.0 ==> p >= 0.0
    ensures c.I == 0.0 ==> p == 0.0
  {
    rate * c.I
  }

  /** The birth-death propensities do not depend on the susceptibles; both grow linearly with the rate. */
  lemma PropensitiesScale(m: TrajectoryModel, rate: real, c: Counts, s: real)
    ensures m.BirthDeath? ==> InfectionPropensity(m, rate, c.(S := s)) == InfectionPropensity(m, rate, c)
    ensures InfectionPropensity(m, rate, c) == rate * InfectionPropensity(m, 1.0, c)
    ensures RecoveryPropensity(rate, c) == rate * RecoveryPropensity(1.0, c)
  {
  }

  /** The state after applying an event (incrementState). */
  function Incremented(m: TrajectoryModel, c: Counts, e: RateEvent): (r: Counts)
  {
    var k := e.multiplicity as real;
    match m
    case SIS(_) =>
      (match e.kind
       case Infection => c.(S := c.S - k, I := c.I + k)
       case Recovery => c.(I := c.I - k, S := c.S + k)
       case RhoSample => c.(I := c.I - k, S := c.S + k)
       case PsiSample => c.(I := c.I - k, S := c.S + k)
       case OtherSample => c.(I := c.I - k, S := c.S + k)
       case _ => c)
    case SIR(_) =>
      (match e.kind
       case Infection => c.(S := c.S - k, I := c.I + k)
       case Recovery => c.(I := c.I - k, R := c.R + k)
       case RhoSample => c.(I := c.I - k, R := c.R + k)
       case PsiSampleRemove => c.(I := c.I - k, R := c.R + k)
       case OtherSample => c.(I := c.I - k, R := c.R + k)
       case _ => c)
    case BirthDeath =>
      (match e.kind
       case Infection => c.(I := c.I + k)
       case Recovery => c.(I := c.I - k)
       case RhoSample => c.(I := c.I - k)
       case PsiSample => c.(I := c.I - k)
       case OtherSample => c.(I := c.I - k)
       case _ => c)
  }

  /** The types that move individuals out of the infected compartment in each model. */
  predicate Removes(m: TrajectoryModel, t: RateEventType)
  {
    match m
    case SIS(_) => t in {Recovery, RhoSample, PsiSample, OtherSample}
    case SIR(_) => t in {Recovery, RhoSample, PsiSampleRemove, OtherSample}
    case BirthDeath => t in {Recovery, RhoSample, PsiSample, OtherSample}
  }

  /**
   * What each event does: an infection moves `m` individuals into I (from
   * S, except in the birth-death model), a removing event moves them out of
   * I (back to S in the SIS model, to R in the SIR model, nowhere in the
   * birth-death model), and any other type changes nothing.
   */
  lemma IncrementEffect(m: TrajectoryModel, c: Counts, e: RateEvent)
    ensures var r := Incremented(m, c, e);
            var k := e.multiplicity as real;
            (e.kind == Infection ==> r.I == c.I + k && r.R == c.R && r.S == (if m.BirthDeath? then c.S else c.S - k))
            && (Removes(m, e.kind) ==>
                  r.I == c.I - k && r.S == (if m.SIS? then c.S + k else c.S) && r.R == (if m.SIR? then c.R + k else c.R))
            && (e.kind != Infection && !Removes(m, e.kind) ==> r == c)
  {
  }

  /**
   * Conservation: the SIS model keeps S + I and never touches R, the SIR
   * model keeps S + I + R, and the birth-death model never changes S or R.
   */
  lemma IncrementConserves(m: TrajectoryModel, c: Counts, e: RateEvent)
    ensures var r := Incremented(m, c, e);
            (m.SIS? ==> r.S + r.I == c.S + c.I && r.R == c.R)
            && (m.SIR? ==> r.S + r.I + r.R == c.S + c.I + c.R)
            && (m.BirthDeath? ==> r.S == c.S && r.R == c.R)
  {
  }

  /** In the SIS and birth-death models a recovery of `k` undoes an infection of `k`. */
  lemma RecoveryUndoesInfection(m: TrajectoryModel, c: Counts, k: int)
    requires !m.SIR?
    ensures Incremented(m, Incremented(m, c, RateEvent(Infection, k)), RateEvent(Recovery, k)) == c
  {
  }

  /** incrementState: the passed state is updated in place. */
  method IncrementState(m: TrajectoryModel, state: EpidemicState, e: RateEvent)
    modifies state
    ensures state.Value() == Incremented(m, old(state.Value()), e)
  {
    var k := e.multiplicity as real;
    match m {
      case SIS(_) =>
        match e.kind {
          case Infection =>
            state.S := state.S - k;
            state.I := state.I + k;
          case Recovery | RhoSample | PsiSample | OtherSample =>
            state.I := state.I - k;
            state.S := state.S + k;
          case _ =>
        }
      case SIR(_) =>
        match e.kind {
          case Infection =>
            state.S := state.S - k;
            state.I := state.I + k;
          case Recovery | RhoSample | PsiSampleRemove | OtherSample =>
            state.I := state.I - k;
            state.R := state.R + k;
          case _ =>
        }
      case BirthDeath =>
        match e.kind {
          case Infection =>
            state.I := state.I + k;
          case Recovery | RhoSample | PsiSample | OtherSample =>
            state.I := state.I - k;
          case _ =>
        }
    }
  }

  /**
   * The parameter accessors of the SIS and birth-death models: the model's
   * own infection (birth) and recovery (death) inputs become the epidemic
   * model's infection and recovery rate inputs; everything else is kept.
   */
  function WithRates(base: EpidemicModel.Config, infection: EpidemicModel.RateInput,
                     recovery: EpidemicModel.RateInput): (c: EpidemicModel.Config)
    ensures c.infection == infection && c.recovery == recovery
    ensures c.(infection := base.infection, recovery := base.recovery) == base
  {
    base.(infection := infection, recovery := recovery)
  }

  // ---------------------------------------------------------------------
  // The single-event models with a propensity table

  /** The event types of the single-event models. */
  datatype SingleEventType = SingleInfection | SingleActivation | SingleRecovery | SingleSample | MultiSample

  /** The three single-event models. */
  datatype SingleModel = SIRSampling | SIRSampleEvents | OriginalSIR

  /** The state after one event of the single-event models. */
  function SingleIncremented(m: SingleModel, c: Counts, t: SingleEventType): (r: Counts)
  {
    match t
    case SingleInfection => c.(S := c.S - 1.0, I := c.I + 1.0)
    case SingleRecovery => c.(I := c.I - 1.0, R := c.R + 1.0)
    case SingleSample => if m.OriginalSIR? then c else c.(I := c.I - 1.0, R := c.R + 1.0)
    case MultiSample => if m.SIRSampling? then c.(I := c.I - 1.0, R := c.R + 1.0) else c
    case SingleActivation => c
  }

  /**
   * Every event keeps S + I + R; a recovery (and in the sampling models a
   * sample, and with sampling probabilities a multi-sample) removes one
   * infected; other types change nothing.
   */
  lemma SingleIncrementMeaning(m: SingleModel, c: Counts, t: SingleEventType)
    ensures var r := SingleIncremented(m, c, t);
            r.S + r.I + r.R == c.S + c.I + c.R
            && (t == SingleInfection ==> r.S == c.S - 1.0 && r.I == c.I + 1.0)
            && (t == SingleRecovery || (t == SingleSample && !m.OriginalSIR?) || (t == MultiSample && m.SIRSampling?)
                ==> r.I == c.I - 1.0 && r.R == c.R + 1.0 && r.S == c.S)
            && (t == SingleActivation || (t == SingleSample && m.OriginalSIR?) || (t == MultiSample && !m.SIRSampling?)
                ==> r == c)
  {
  }

  /** The initial state of all three single-event models. */
  function SingleInitialCounts(S0: int): (c: Counts)
    ensures c == Counts(S0 as real, 1.0, 0.0)
  {
    Counts(S0 as real, 1.0, 0.0)
  }

  /** The sum of the propensities of the given types, absent ones counting 0. */
  function TableSum(table: map<SingleEventType, real>, types: seq<SingleEventType>): real
  {
    if types == [] then 0.0
    else Entry(table, types[0]) + TableSum(table, types[1..])
  }

  function Entry(table: map<SingleEventType, real>, t: SingleEventType): real
  {
    if t in table then table[t] else 0.0
  }

  lemma TableSumTwo(table: map<SingleEventType, real>, a: SingleEventType, b: SingleEventType)
    ensures TableSum(table, [a, b]) == Entry(table, a) + Entry(table, b)
  {
    assert [a, b][1..] == [b];
    assert [b][1..] == [];
    assert TableSum(table, [b]) == Entry(table, b) + TableSum(table, []);
  }

  lemma TableSumThree(table: map<SingleEventType, real>, a: SingleEventType, b: SingleEventType, c: SingleEventType)
    ensures TableSum(table, [a, b, c]) == Entry(table, a) + Entry(table, b) + Entry(table, c)
  {
    assert [a, b, c][1..] == [b, c];
    TableSumTwo(table, b, c);
  }

  /** getProbCoalescence of the sampling model: 0 below two infecteds, else one over the ordered pairs. */
  function ProbCoalescence(N: real): (p: real)
    ensures N < 2.0 ==> p == 0.0
    ensures N >= 2.0 ==> 0.0 < p <= 0.5 && p * (N * (N - 1.0)) == 1.0
  {
    if N < 2.0 then 0.0
    else
      var d := N * (N - 1.0);
      assert d >= N * 1.0 >= 2.0;
      assert 1.0 / d * d == 1.0;
      1.0 / d
  }

  /** getProbNoCoalescence: the chance that two given lineages are the pair, scaled by the lineage pairs. */
  function ProbNoCoalescence(N: real, lineages: int): (p: real)
    ensures N < 2.0 ==> p == 0.0
  {
    if N < 2.0 then 0.0 else (lineages * (lineages - 1)) as real / (N * (N - 1.0))
  }

  /** The two are related by the number of ordered lineage pairs, which is at most N(N-1), so the result is a probability. */
  lemma ProbNoCoalescenceMeaning(N: real, lineages: int)
    ensures ProbNoCoalescence(N, lineages) == (lineages * (lineages - 1)) as real * ProbCoalescence(N)
    ensures 0 <= lineages && lineages as real <= N ==> 0.0 <= ProbNoCoalescence(N, lineages) <= 1.0
  {
    if N >= 2.0 {
      var d := N * (N - 1.0);
      var x := (lineages * (lineages - 1)) as real;
      assert d >= 2.0 by { MulRight(1.0, N - 1.0, N); }
      DivAsProduct(x, d);
      if 0 <= lineages && lineages as real <= N {
        PairsBound(lineages, N);
        DivUnit(x, d);
      }
    }
  }

  lemma DivAsProduct(x: real, d: real)
    requires d != 0.0
    ensures x / d == x * (1.0 / d)
  {
    var q := 1.0 / d;
    assert q * d == 1.0;
    assert (x * q) * d == x * (q * d);
  }

  lemma DivUnit(x: real, d: real)
    requires 0.0 < d && 0.0 <= x <= d
    ensures 0.0 <= x / d <= 1.0
  {
  }

  /** There are at most N(N-1) ordered pairs among at most N lineages. */
  lemma PairsBound(k: int, N: real)
    requires 0 <= k && k as real <= N && 1.0 <= N
    ensures 0.0 <= (k * (k - 1)) as real <= N * (N - 1.0)
  {
    var r := k as real;
    assert (k * (k - 1)) as real == r * (r - 1.0);
    if k >= 1 {
      assert 0.0 <= r * (r - 1.0) by { MulRight(0.0, r, r - 1.0); }
      assert r * (r - 1.0) <= N * (r - 1.0) by { MulRight(r, N, r - 1.0); }
      assert N * (r - 1.0) <= N * (N - 1.0) by { MulRight(r - 1.0, N - 1.0, N); }
    } else {
      assert 0.0 <= N * (N - 1.0) by { MulRight(0.0, N - 1.0, N); }
    }
  }

  lemma MulRight(a: real, b: real, c: real)
    requires a <= b && 0.0 <= c
    ensures a * c <= b * c
  {
    assert b * c - a * c == (b - a) * c;
  }

  /** SIRModelSampling: infection, plus recovery split into sampled and unsampled parts by the sampling probability. */
  class SIRModelSampling {
    const S0: int
    const infectionRate: real
    const recoveryRate: real
    const samplingProb: real
    var propensities: map<SingleEventType, real>
    var totalPropensity: real

    constructor(S0: int, infectionRate: real, recoveryRate: real, samplingProb: real)
      ensures this.S0 == S0 && this.infectionRate == infectionRate
      ensures this.recoveryRate == recoveryRate && this.samplingProb == samplingProb
      ensures propensities == map[] && totalPropensity == 0.0
    {
      this.S0 := S0;
      this.infectionRate := infectionRate;
      this.recoveryRate := recoveryRate;
      this.samplingProb := samplingProb;
      propensities := map[];
      totalPropensity := 0.0;
    }

    /** getInitialState: S0 susceptibles and one infected, in a new state object. */
    method GetInitialState() returns (s: EpidemicState)
      ensures fresh(s) && s.Value() == SingleInitialCounts(S0)
    {
      s := new EpidemicState(S0 as real, 1.0, 0.0);
    }

    /** The propensity table after calculatePropensities, over the previous table. */
    function Table(table: map<SingleEventType, real>, c: Counts): map<SingleEventType, real>
    {
      table[SingleInfection := infectionRate * c.S * c.I]
           [SingleRecovery := recoveryRate * (1.0 - samplingProb) * c.I]
           [SingleSample := recoveryRate * samplingProb * c.I]
    }

    /** Recovery and sampling together occur at the recovery rate; the total is the sum of all three entries. */
    lemma TableMeaning(table: map<SingleEventType, real>, c: Counts)
      ensures var t := Table(table, c);
              t[SingleRecovery] + t[SingleSample] == recoveryRate * c.I
              && TableSum(t, [SingleInfection, SingleRecovery, SingleSample])
                 == t[SingleInfection] + recoveryRate * c.I
              && (0.0 <= samplingProb <= 1.0 && recoveryRate >= 0.0 && c.I >= 0.0 ==> t[SingleRecovery] >= 0.0 && t[SingleSample] >= 0.0)
    {
      var t := Table(table, c);
      assert t[SingleRecovery] + t[SingleSample] == recoveryRate * c.I * ((1.0 - samplingProb) + samplingProb);
      TableSumThree(t, SingleInfection, SingleRecovery, SingleSample);
      if 0.0 <= samplingProb <= 1.0 && recoveryRate >= 0.0 && c.I >= 0.0 {
        MulRight(0.0, recoveryRate, 1.0 - samplingProb);
        MulRight(0.0, recoveryRate * (1.0 - samplingProb), c.I);
        MulRight(0.0, recoveryRate, samplingProb);
        MulRight(0.0, recoveryRate * samplingProb, c.I);
      }
    }

    method CalculatePropensities(state: EpidemicState)
      modifies this`propensities, this`totalPropensity
      ensures propensities == Table(old(propensities), state.Value())
      ensures totalPropensity == TableSum(propensities, [SingleInfection, SingleSample, SingleRecovery])
    {
      var c := state.Value();
      ghost var before := propensities;
      propensities := propensities[SingleInfection := infectionRate * c.S * c.I];
      propensities := propensities[SingleRecovery := recoveryRate * (1.0 - samplingProb) * c.I];
      propensities := propensities[SingleSample := recoveryRate * samplingProb * c.I];
      assert propensities[SingleInfection] == Table(before, c)[SingleInfection];
      assert propensities[SingleRecovery] == Table(before, c)[SingleRecovery];
      assert propensities[SingleSample] == Table(before, c)[SingleSample];
      assert propensities.Keys == Table(before, c).Keys;
      totalPropensity := propensities[SingleInfection] + propensities[SingleSample] + propensities[SingleRecovery];
      assert state.Value() == c;
      TableSumThree(propensities, SingleInfection, SingleSample, SingleRecovery);
    }

    method IncrementState(state: EpidemicState, t: SingleEventType)
      modifies state
      ensures state.Value() == SingleIncremented(SIRSampling, old(state.Value()), t)
    {
      match t {
        case SingleInfection =>
          state.S := state.S - 1.0;
          state.I := state.I + 1.0;
        case SingleRecovery | SingleSample | MultiSample =>
          state.I := state.I - 1.0;
          state.R := state.R + 1.0;
        case _ =>
      }
    }
  }

  /** SIRSampleModel: infection, recovery and a separate sampling propensity left out of the total. */
  class SIRSampleModel {
    const S0: int
    const infectionRate: real
    const recoveryRate: real
    const samplingRate: real
    var propensities: map<SingleEventType, real>
    var totalPropensity: real

    constructor(S0: int, infectionRate: real, recoveryRate: real, samplingRate: real)
      ensures this.S0 == S0 && this.infectionRate == infectionRate
      ensures this.recoveryRate == recoveryRate && this.samplingRate == samplingRate
      ensures propensities == map[] && totalPropensity == 0.0
    {
      this.S0 := S0;
      this.infectionRate := infectionRate;
      this.recoveryRate := recoveryRate;
      this.samplingRate := samplingRate;
      propensities := map[];
      totalPropensity := 0.0;
    }

    function Table(table: map<SingleEventType, real>, c: Counts): map<SingleEventType, real>
    {
      table[SingleInfection := infectionRate * c.S * c.I]
           [SingleRecovery := recoveryRate * c.I]
           [SingleSample := samplingRate * c.I]
    }

    method CalculatePropensities(state: EpidemicState)
      modifies this`propensities, this`totalPropensity
      ensures propensities == Table(old(propensities), state.Value())
      ensures totalPropensity == TableSum(propensities, [SingleInfection, SingleRecovery])
      ensures totalPropensity + propensities[SingleSample] == TableSum(propensities, [SingleInfection, SingleRecovery, SingleSample])
    {
      var c := state.Value();
      ghost var before := propensities;
      propensities := propensities[SingleInfection := infectionRate * c.S * c.I];
      propensities := propensities[SingleRecovery := recoveryRate * c.I];
      propensities := propensities[SingleSample := samplingRate * c.I];
      assert propensities[SingleInfection] == Table(before, c)[SingleInfection];
      assert propensities[SingleRecovery] == Table(before, c)[SingleRecovery];
      assert propensities[SingleSample] == Table(before, c)[SingleSample];
      assert propensities.Keys == Table(before, c).Keys;
      totalPropensity := propensities[SingleInfection] + propensities[SingleRecovery];
      assert state.Value() == c;
      TableSumTwo(propensities, SingleInfection, SingleRecovery);
      TableSumThree(propensities, SingleInfection, SingleRecovery, SingleSample);
    }

    method IncrementState(state: EpidemicState, t: SingleEventType)
      modifies state
      ensures state.Value() == SingleIncremented(SIRSampleEvents, old(state.Value()), t)
    {
      match t {
        case SingleInfection =>
          state.S := state.S - 1.0;
          state.I := state.I + 1.0;
        case SingleRecovery =>
          state.I := state.I - 1.0;
          state.R := state.R + 1.0;
        case SingleSample =>
          state.I := state.I - 1.0;
          state.R := state.R + 1.0;
        case _ =>
      }
    }

    /** getCoalescenceEventType and getLeafEventType. */
    function CoalescenceEventType(): (t: SingleEventType)
      ensures SingleIncremented(SIRSampleEvents, Counts(0.0, 0.0, 0.0), t).I == 1.0
    {
      SingleInfection
    }

    function LeafEventType(): (t: SingleEventType)
      ensures t != SingleRecovery
      ensures SingleIncremented(SIRSampleEvents, Counts(0.0, 1.0, 0.0), t) == Counts(0.0, 0.0, 1.0)
    {
      SingleSample
    }
  }

  /** The original SIR model: infection and recovery only. */
  class SIRModel {
    const S0: int
    const infectionRate: real
    const recoveryRate: real
    var propensities: map<SingleEventType, real>
    var totalPropensity: real

    constructor(S0: int, infectionRate: real, recoveryRate: real)
      ensures this.S0 == S0 && this.infectionRate == infectionRate && this.recoveryRate == recoveryRate
      ensures propensities == map[] && totalPropensity == 0.0
    {
      this.S0 := S0;
      this.infectionRate := infectionRate;
      this.recoveryRate := recoveryRate;
      propensities := map[];
      totalPropensity := 0.0;
    }

    function Table(table: map<SingleEventType, real>, c: Counts): map<SingleEventType, real>
    {
      table[SingleInfection := infectionRate * c.S * c.I][SingleRecovery := recoveryRate * c.I]
    }

    method CalculatePropensities(state: EpidemicState)
      modifies this`propensities, this`totalPropensity
      ensures propensities == Table(old(propensities), state.Value())
      ensures totalPropensity == TableSum(propensities, [SingleInfection, SingleRecovery])
    {
      var c := state.Value();
      ghost var before := propensities;
      propensities := propensities[SingleInfection := infectionRate * c.S * c.I];
      propensities := propensities[SingleRecovery := recoveryRate * c.I];
      assert propensities[SingleInfection] == Table(before, c)[SingleInfection];
      assert propensities[SingleRecovery] == Table(before, c)[SingleRecovery];
      assert propensities.Keys == Table(before, c).Keys;
      totalPropensity := propensities[SingleInfection] + propensities[SingleRecovery];
      assert state.Value() == c;
      TableSumTwo(propensities, SingleInfection, SingleRecovery);
    }

    method IncrementState(state: EpidemicState, t: SingleEventType)
      modifies state
      ensures state.Value() == SingleIncremented(OriginalSIR, old(state.Value()), t)
    {
      match t {
        case SingleInfection =>
          state.S := state.S - 1.0;
          state.I := state.I + 1.0;
        case SingleRecovery =>
          state.I := state.I - 1.0;
          state.R := state.R + 1.0;
        case _ =>
      }
    }
  }

  /** With no infecteds every propensity of every model is zero. */
  lemma NoInfectedsNoEvents(table: map<SingleEventType, real>, beta: real, gamma: real, psi: real, S: real, R: real)
    ensures var c := Counts(S, 0.0, R);
            var t := table[SingleInfection := beta * c.S * c.I][SingleRecovery := gamma * c.I][SingleSample := psi * c.I];
            TableSum(t, [SingleInfection, SingleRecovery, SingleSample]) == 0.0
  {
    var c := Counts(S, 0.0, R);
    var t := table[SingleInfection := beta * c.S * c.I][SingleRecovery := gamma * c.I][SingleSample := psi * c.I];
    assert beta * c.S * c.I == 0.0 && gamma * c.I == 0.0 && psi * c.I == 0.0;
    TableSumThree(t, SingleInfection, SingleRecovery, SingleSample);
  }
}
