/**
 * The piecewise-constant rate schedule shared by the epidemic models: rates
 * that change at given shift times (expressed forward from the origin or
 * backward from the most recent sample), the interval lookup by binary
 * search, the sorted list of model events (rho sampling and rate changes),
 * and the cache of transformed rates for each interval between them.
 */
module EpidemicModel {
  import opened Wrappers
  import opened Doubles
  import opened Sorting

  /** A rate input: its values (absent when not given), its shift times (absent when not given), and their direction. */
  datatype RateInput = RateInput(values: Option<seq<real>>, shiftTimes: Option<seq<real>>, backward: bool)

  datatype RateVariable = InfectionRate | RecoveryRate | PsiSamplingVariable | RemovalProb

  datatype ModelEvent =
    | RhoSampling(time: real, rho: real)
    | RateChange(time: real, variable: RateVariable, newValue: real)

  /** The inputs of the model that the rate schedule reads. */
  datatype Config = Config(infection: RateInput, recovery: RateInput, psi: RateInput, removal: RateInput,
                           usePsiSamplingProportion: bool,
                           rhoProbs: Option<seq<real>>, rhoTimes: Option<seq<real>>, rhoBackward: bool,
                           origin: real)

  /** The untransformed rates in force in one interval. */
  datatype Rates = Rates(infection: real, recovery: real, psiVariable: real, removalProb: real)

  /** The simulation rates of one interval; the psi-sampling rates can be infinite or NaN. */
  datatype TransformedRates = TransformedRates(infection: real, recovery: real, psiRemove: Double, psiNoRemove: Double)

  predicate Ascending(s: seq<real>)
  {
    forall i, j :: 0 <= i < j < |s| ==> s[i] <= s[j]
  }

  predicate StrictlyAscending(s: seq<real>)
  {
    forall i, j :: 0 <= i < j < |s| ==> s[i] < s[j]
  }

  // ---------------------------------------------------------------------
  // getForwardTime

  /** A shift time in the forward direction; backward times are also taken in reverse order. */
  function ForwardTime(origin: real, times: seq<real>, i: nat, isReversed: bool): real
    requires i < |times|
  {
    if isReversed then origin - times[|times| - 1 - i] else times[i]
  }

  function ForwardTimes(origin: real, times: seq<real>, isReversed: bool): (r: seq<real>)
    ensures |r| == |times|
    ensures forall i :: 0 <= i < |r| ==> r[i] == ForwardTime(origin, times, i, isReversed)
  {
    seq(|times|, i requires 0 <= i < |times| => ForwardTime(origin, times, i, isReversed))
  }

  /** Increasing times, forward or backward, give increasing forward times. */
  lemma ForwardTimesAscending(origin: real, times: seq<real>, isReversed: bool)
    requires Ascending(times)
    ensures Ascending(ForwardTimes(origin, times, isReversed))
  {
    var fs := ForwardTimes(origin, times, isReversed);
    forall i, j | 0 <= i < j < |fs| ensures fs[i] <= fs[j] {
      if isReversed {
        assert times[|times| - 1 - j] <= times[|times| - 1 - i];
      }
    }
  }

  lemma ForwardTimesStrictlyAscending(origin: real, times: seq<real>, isReversed: bool)
    requires StrictlyAscending(times)
    ensures StrictlyAscending(ForwardTimes(origin, times, isReversed))
  {
    var fs := ForwardTimes(origin, times, isReversed);
    forall i, j | 0 <= i < j < |fs| ensures fs[i] < fs[j] {
      if isReversed {
        assert times[|times| - 1 - j] < times[|times| - 1 - i];
      }
    }
  }

  // ---------------------------------------------------------------------
  // getRateInInterval

  /** getRateInInterval as written: reversed inputs count from the end, forward inputs always give element 0. */
  function RateInIntervalAsWritten(values: seq<real>, i: nat, isReversed: bool): (r: real)
    requires |values| >= 1 && (isReversed ==> i < |values|)
    ensures isReversed ==> r == values[|values| - 1 - i]
    ensures !isReversed ==> r == values[0]
  {
    if isReversed then values[|values| - 1 - i] else values[0]
  }

  /** The rate of forward interval `i`: element `i`, counted from the end for backward inputs. */
  function RateInInterval(values: seq<real>, i: nat, isReversed: bool): (r: real)
    requires i < |values|
    ensures r == values[if isReversed then |values| - 1 - i else i]
  {
    if isReversed then values[|values| - 1 - i] else values[i]
  }

  // ---------------------------------------------------------------------
  // binarySearch

  /**
   * The loop of binarySearch over the forward times `fs`, from the bounds
   * `imin`, `imax`. When an interval is found early, the code as written
   * converts `imin` for backward inputs (`midOnEarlyReturn` false); the
   * intended conversion is of `imid`.
   */
  /** The midpoint binarySearch probes, rounded down. */
  function Mid(lo: nat, hi: nat): (m: nat)
    requires lo < hi
    ensures lo <= m < hi
  {
    lo + (hi - lo) / 2
  }

  function SearchLoop(fs: seq<real>, time: real, imin: nat, imax: nat, backwards: bool, midOnEarlyReturn: bool): (r: int)
    requires imin <= imax <= |fs|
    ensures 0 <= r <= |fs|
    decreases imax - imin
  {
    if imax <= imin then (if backwards then |fs| - imin else imin)
    else
      var imid := Mid(imin, imax);
      if imid == |fs| || fs[imid] > time then
        if imid == 0 || fs[imid - 1] <= time then
          (if backwards then |fs| - (if midOnEarlyReturn then imid else imin) else imid)
        else SearchLoop(fs, time, imin, imid, backwards, midOnEarlyReturn)
      else SearchLoop(fs, time, imid + 1, imax, backwards, midOnEarlyReturn)
  }

  /** `time` lies in forward interval `i`: after shift i-1 (if any) and before shift i (if any). */
  predicate IntervalOf(fs: seq<real>, time: real, i: int)
  {
    0 <= i <= |fs| && (i == 0 || fs[i - 1] <= time) && (i == |fs| || time < fs[i])
  }

  /** For increasing shift times, each time lies in exactly one interval. */
  lemma IntervalUnique(fs: seq<real>, time: real, i: int, j: int)
    requires Ascending(fs) && IntervalOf(fs, time, i) && IntervalOf(fs, time, j)
    ensures i == j
  {
  }

  /** Some interval holds every time. */
  lemma {:induction false} IntervalExists(fs: seq<real>, time: real, k: nat) returns (i: int)
    requires Ascending(fs) && k <= |fs| && (k == 0 || fs[k - 1] <= time)
    ensures IntervalOf(fs, time, i)
    decreases |fs| - k
  {
    if k == |fs| || time < fs[k] {
      i := k;
    } else {
      i := IntervalExists(fs, time, k + 1);
    }
  }

  /**
   * The search keeps `time` between its bounds, so it returns the interval of
   * `time` (counted from the end for backward inputs with the intended
   * conversion). The shift times need not be sorted for this.
   */
  lemma {:induction false} SearchFinds(fs: seq<real>, time: real, imin: nat, imax: nat, backwards: bool, midOnEarlyReturn: bool)
    requires imin <= imax <= |fs|
    requires imin == 0 || fs[imin - 1] <= time
    requires imax == |fs| || time < fs[imax]
    requires backwards ==> midOnEarlyReturn
    ensures var r := SearchLoop(fs, time, imin, imax, backwards, midOnEarlyReturn);
            IntervalOf(fs, time, if backwards then |fs| - r else r)
    decreases imax - imin
  {
    if imax > imin {
      var imid := Mid(imin, imax);
      if fs[imid] > time {
        if imid == 0 || fs[imid - 1] <= time {
          assert IntervalOf(fs, time, imid);
        } else {
          SearchFinds(fs, time, imin, imid, backwards, midOnEarlyReturn);
        }
      } else {
        SearchFinds(fs, time, imid + 1, imax, backwards, midOnEarlyReturn);
      }
    } else {
      assert IntervalOf(fs, time, imin);
    }
  }

  /**
   * The discrepancy of the code as written: with backward shift times
   * 20, 50, 100 and origin 200, the time 101 lies in forward interval 1
   * ([100, 150)), i.e. backward interval 2, but the early return gives 3.
   */
  lemma BackwardEarlyReturnDiverges()
    ensures var fs := ForwardTimes(200.0, [20.0, 50.0, 100.0], true);
            fs == [100.0, 150.0, 180.0] &&
            IntervalOf(fs, 101.0, 1) &&
            SearchLoop(fs, 101.0, 0, 3, true, false) == 3 &&
            SearchLoop(fs, 101.0, 0, 3, true, true) == 2
  {
    var fs := ForwardTimes(200.0, [20.0, 50.0, 100.0], true);
    assert fs[0] == 100.0 && fs[1] == 150.0 && fs[2] == 180.0;
    assert fs == [100.0, 150.0, 180.0];
  }

  // ---------------------------------------------------------------------
  // getRateAtTime

  /** The rate values cover every interval of the shift times. */
  predicate Dimensioned(input: RateInput)
  {
    (input.values.Some? ==> |input.values.value| >= 1)
    && (input.shiftTimes.Some? ==> input.values.Some? && |input.values.value| >= |input.shiftTimes.value| + 1)
  }

  /** getRateAtTime: 0 without a rate, element 0 without shifts, else the element of the interval found. */
  function RateAtTime(origin: real, input: RateInput, time: real): real
    requires input.values.Some? ==> |input.values.value| >= 1
    requires input.values.Some? && input.shiftTimes.Some? ==> |input.values.value| >= |input.shiftTimes.value| + 1
  {
    match input.values
    case None => 0.0
    case Some(vs) =>
      match input.shiftTimes
      case None => vs[0]
      case Some(ts) => vs[SearchLoop(ForwardTimes(origin, ts, input.backward), time, 0, |ts|, input.backward, true)]
  }

  /** getRateAtTime as written: the interval looked up with binarySearch as written. */
  function RateAtTimeAsWritten(origin: real, input: RateInput, time: real): real
    requires input.values.Some? ==> |input.values.value| >= 1
    requires input.values.Some? && input.shiftTimes.Some? ==> |input.values.value| >= |input.shiftTimes.value| + 1
  {
    match input.values
    case None => 0.0
    case Some(vs) =>
      match input.shiftTimes
      case None => vs[0]
      case Some(ts) => vs[SearchLoop(ForwardTimes(origin, ts, input.backward), time, 0, |ts|, input.backward, false)]
  }

  /**
   * The two conversions of an early return agree for forward inputs, and
   * for backward inputs at a time before every shift, where the search
   * only returns early at 0.
   */
  lemma {:induction false} SearchAgrees(fs: seq<real>, time: real, imin: nat, imax: nat, backwards: bool)
    requires imin <= imax <= |fs|
    requires backwards ==> imin == 0 && forall j :: 0 <= j < |fs| ==> time < fs[j]
    ensures SearchLoop(fs, time, imin, imax, backwards, false) == SearchLoop(fs, time, imin, imax, backwards, true)
    decreases imax - imin
  {
    if imax > imin {
      var imid := Mid(imin, imax);
      if imid == |fs| || fs[imid] > time {
        if !(imid == 0 || fs[imid - 1] <= time) {
          SearchAgrees(fs, time, imin, imid, backwards);
        }
      } else if !backwards {
        SearchAgrees(fs, time, imid + 1, imax, backwards);
      }
    }
  }

  /** The rate lookup as written gives the intended rate for forward inputs, and for backward inputs before every shift. */
  lemma LookupAsWrittenAgrees(origin: real, input: RateInput, time: real)
    requires Dimensioned(input)
    requires input.backward && input.shiftTimes.Some? ==>
               forall j :: 0 <= j < |input.shiftTimes.value| ==> time < ForwardTime(origin, input.shiftTimes.value, j, true)
    ensures RateAtTimeAsWritten(origin, input, time) == RateAtTime(origin, input, time)
  {
    if input.values.Some? && input.shiftTimes.Some? {
      var ts := input.shiftTimes.value;
      SearchAgrees(ForwardTimes(origin, ts, input.backward), time, 0, |ts|, input.backward);
    }
  }

  /** With backward shift times 20, 50, 100 and origin 200, the rate at time 101 is the third value, but as written the fourth. */
  lemma BackwardLookupAsWrittenDiverges()
    ensures var input := RateInput(Some([1.0, 2.0, 3.0, 4.0]), Some([20.0, 50.0, 100.0]), true);
            RateAtTime(200.0, input, 101.0) == 3.0 && RateAtTimeAsWritten(200.0, input, 101.0) == 4.0
  {
    BackwardEarlyReturnDiverges();
  }

  /** For sorted shift times, the rate at a time is the value of that time's interval (counted from the end when backward). */
  lemma RateAtTimeMeaning(origin: real, input: RateInput, time: real, i: int)
    requires Dimensioned(input) && input.shiftTimes.Some? && Ascending(input.shiftTimes.value)
    requires IntervalOf(ForwardTimes(origin, input.shiftTimes.value, input.backward), time, i)
    ensures var n := |input.shiftTimes.value|;
            RateAtTime(origin, input, time) == input.values.value[if input.backward then n - i else i]
  {
    var ts := input.shiftTimes.value;
    var fs := ForwardTimes(origin, ts, input.backward);
    ForwardTimesAscending(origin, ts, input.backward);
    SearchFinds(fs, time, 0, |ts|, input.backward, true);
    var r := SearchLoop(fs, time, 0, |ts|, input.backward, true);
    IntervalUnique(fs, time, i, if input.backward then |ts| - r else r);
    assert RateAtTime(origin, input, time) == input.values.value[r];
  }

  /**
   * The rate change at shift `i` carries the rate that the direct lookup
   * gives at that shift's time, when the shift times increase strictly and
   * there is one more value than shift times.
   */
  lemma ShiftRateAgrees(origin: real, input: RateInput, i: nat)
    requires Dimensioned(input) && input.shiftTimes.Some? && StrictlyAscending(input.shiftTimes.value)
    requires |input.values.value| == |input.shiftTimes.value| + 1 && i < |input.shiftTimes.value|
    ensures RateAtTime(origin, input, ForwardTime(origin, input.shiftTimes.value, i, input.backward))
            == RateInInterval(input.values.value, i + 1, input.backward)
  {
    var ts := input.shiftTimes.value;
    var fs := ForwardTimes(origin, ts, input.backward);
    ForwardTimesStrictlyAscending(origin, ts, input.backward);
    assert IntervalOf(fs, fs[i], i + 1);
    RateAtTimeMeaning(origin, input, fs[i], i + 1);
  }

  /** As written, a forward rate change carries element 0, not the rate that follows the shift. */
  lemma ForwardShiftAsWrittenDiverges()
    ensures var input := RateInput(Some([1.0, 2.0]), Some([5.0]), false);
            RateAtTime(10.0, input, 5.0) == 2.0 &&
            RateInInterval([1.0, 2.0], 1, false) == 2.0 &&
            RateInIntervalAsWritten([1.0, 2.0], 1, false) == 1.0 &&
            ShiftEvent(10.0, input, InfectionRate, 0).newValue == 1.0
  {
    var input := RateInput(Some([1.0, 2.0]), Some([5.0]), false);
    ShiftRateAgrees(10.0, input, 0);
  }

  // ---------------------------------------------------------------------
  // transformRates

  /** The psi-sampling rate: the variable itself, or recovery/(1/v - 1) in proportion mode when v > 0. */
  function PsiSamplingRate(rates: Rates, useProportion: bool): Double
  {
    if !useProportion then Finite(rates.psiVariable)
    else if rates.psiVariable > 0.0 then Div(rates.recovery, 1.0 / rates.psiVariable - 1.0)
    else Finite(0.0)
  }

  /** transformRates: infection and recovery as they are, psi sampling split by the removal probability. */
  function Transform(rates: Rates, useProportion: bool): (t: TransformedRates)
    ensures t.infection == rates.infection && t.recovery == rates.recovery
  {
    var psi := PsiSamplingRate(rates, useProportion);
    TransformedRates(rates.infection, rates.recovery, Scale(psi, rates.removalProb), Scale(psi, 1.0 - rates.removalProb))
  }

  /** The removing and non-removing psi-sampling rates add up to the psi-sampling rate. */
  lemma TransformSplitsPsi(rates: Rates, useProportion: bool)
    requires PsiSamplingRate(rates, useProportion).Finite?
    ensures var t := Transform(rates, useProportion);
            t.psiRemove.Finite? && t.psiNoRemove.Finite? &&
            t.psiRemove.v + t.psiNoRemove.v == PsiSamplingRate(rates, useProportion).v
  {
    var p := PsiSamplingRate(rates, useProportion).v;
    assert p * rates.removalProb + p * (1.0 - rates.removalProb) == p;
  }

  /**
   * In proportion mode with 0 < v < 1 the psi-sampling rate psi satisfies
   * psi / (recovery + psi) == v, the proportion the input stands for; v <= 0
   * gives no psi sampling.
   */
  lemma ProportionMeaning(rates: Rates)
    ensures rates.psiVariable <= 0.0 ==> PsiSamplingRate(rates, true) == Finite(0.0)
    ensures 0.0 < rates.psiVariable < 1.0 && rates.recovery > 0.0 ==>
              PsiSamplingRate(rates, true).Finite? &&
              var psi := PsiSamplingRate(rates, true).v;
              psi > 0.0 && psi / (rates.recovery + psi) == rates.psiVariable
  {
    var v := rates.psiVariable;
    var mu := rates.recovery;
    if 0.0 < v < 1.0 && mu > 0.0 {
      var d := 1.0 / v - 1.0;
      assert d == (1.0 - v) / v;
      assert d > 0.0;
      var psi := mu / d;
      assert psi == mu * v / (1.0 - v);
      assert mu + psi == mu / (1.0 - v);
      assert psi / (mu + psi) == (mu * v / (1.0 - v)) / (mu / (1.0 - v));
    }
  }

  // ---------------------------------------------------------------------
  // The model event list

  /** Every positive rho probability has a sampling time. */
  predicate RhoCovered(config: Config)
  {
    config.rhoProbs.Some? ==>
      forall i :: 0 <= i < |config.rhoProbs.value| && config.rhoProbs.value[i] > 0.0 ==>
        config.rhoTimes.Some? && i < |config.rhoTimes.value|
  }

  /** What the event list needs of the inputs for every lookup to be in range. */
  predicate EventsDefined(config: Config)
  {
    RhoCovered(config)
    && Dimensioned(config.infection) && Dimensioned(config.recovery)
    && Dimensioned(config.psi) && Dimensioned(config.removal)
  }

  /** The rho sampling events of the first `n` probabilities; those of probability <= 0 are skipped. */
  function RhoEvents(config: Config, n: nat): (r: seq<ModelEvent>)
    requires RhoCovered(config) && config.rhoProbs.Some? && n <= |config.rhoProbs.value|
  {
    if n == 0 then []
    else
      var rho := config.rhoProbs.value[n - 1];
      RhoEvents(config, n - 1)
      + (if rho > 0.0 then [RhoSampling(ForwardTime(config.origin, config.rhoTimes.value, n - 1, config.rhoBackward), rho)] else [])
  }

  function AllRhoEvents(config: Config): seq<ModelEvent>
    requires RhoCovered(config)
  {
    if config.rhoProbs.None? then [] else RhoEvents(config, |config.rhoProbs.value|)
  }

  /** The rate change at shift `i`: at the shift's forward time, to the rate of the interval after it. */
  function ShiftEvent(origin: real, input: RateInput, variable: RateVariable, i: nat): ModelEvent
    requires Dimensioned(input) && input.shiftTimes.Some? && i < |input.shiftTimes.value|
  {
    RateChange(ForwardTime(origin, input.shiftTimes.value, i, input.backward), variable,
               RateInIntervalAsWritten(input.values.value, i + 1, input.backward))
  }

  /** For backward inputs the rate change carries the rate of the interval after the shift; as written, forward ones carry element 0. */
  lemma ShiftEventRate(origin: real, input: RateInput, variable: RateVariable, i: nat)
    requires Dimensioned(input) && input.shiftTimes.Some? && i < |input.shiftTimes.value|
    ensures input.backward ==> ShiftEvent(origin, input, variable, i).newValue == RateInInterval(input.values.value, i + 1, true)
    ensures !input.backward ==> ShiftEvent(origin, input, variable, i).newValue == input.values.value[0]
  {
  }

  function ShiftEvents(origin: real, input: RateInput, variable: RateVariable): (r: seq<ModelEvent>)
    requires Dimensioned(input)
    ensures input.shiftTimes.None? ==> r == []
    ensures input.shiftTimes.Some? ==> |r| == |input.shiftTimes.value|
  {
    match input.shiftTimes
    case None => []
    case Some(ts) => seq(|ts|, i requires 0 <= i < |ts| => ShiftEvent(origin, input, variable, i))
  }

  function EventTime(e: ModelEvent): real
  {
    e.time
  }

  /** The events in the order updateModelEventList appends them. */
  function UnsortedEvents(config: Config): seq<ModelEvent>
    requires EventsDefined(config)
  {
    AllRhoEvents(config)
    + ShiftEvents(config.origin, config.infection, InfectionRate)
    + ShiftEvents(config.origin, config.recovery, RecoveryRate)
    + ShiftEvents(config.origin, config.psi, PsiSamplingVariable)
    + ShiftEvents(config.origin, config.removal, RemovalProb)
  }

  /** The model event list: all events sorted by time (the sort keeps the order of equal times). */
  function ModelEvents(config: Config): seq<ModelEvent>
    requires EventsDefined(config)
  {
    SortBy(UnsortedEvents(config), EventTime)
  }

  function PositiveCount(s: seq<real>, n: nat): nat
    requires n <= |s|
  {
    if n == 0 then 0 else PositiveCount(s, n - 1) + (if s[n - 1] > 0.0 then 1 else 0)
  }

  function ShiftCount(input: RateInput): nat
  {
    if input.shiftTimes.None? then 0 else |input.shiftTimes.value|
  }

  /** Rho events are exactly the positive probabilities, each with its probability. */
  lemma {:induction false} RhoEventsShape(config: Config, n: nat)
    requires RhoCovered(config) && config.rhoProbs.Some? && n <= |config.rhoProbs.value|
    ensures |RhoEvents(config, n)| == PositiveCount(config.rhoProbs.value, n)
    ensures forall e | e in RhoEvents(config, n) :: e.RhoSampling? && e.rho > 0.0
  {
    if n > 0 {
      RhoEventsShape(config, n - 1);
    }
  }

  /**
   * The model event list is sorted by time, holds one rho event per positive
   * rho probability and one rate change per shift time, and the rho events
   * all have positive probability.
   */
  lemma ModelEventsShape(config: Config)
    requires EventsDefined(config)
    ensures var es := ModelEvents(config);
            SortedBy(es, EventTime) &&
            multiset(es) == multiset(UnsortedEvents(config)) &&
            |es| == (if config.rhoProbs.None? then 0 else PositiveCount(config.rhoProbs.value, |config.rhoProbs.value|))
                    + ShiftCount(config.infection) + ShiftCount(config.recovery)
                    + ShiftCount(config.psi) + ShiftCount(config.removal) &&
            (forall e | e in es && e.RhoSampling? :: e.rho > 0.0)
  {
    UnsortedCount(config);
    SortedRhoPositive(config);
  }

  /** One rho event per positive rho probability and one rate change per shift time, before sorting. */
  lemma UnsortedCount(config: Config)
    requires EventsDefined(config)
    ensures |UnsortedEvents(config)| == (if config.rhoProbs.None? then 0 else PositiveCount(config.rhoProbs.value, |config.rhoProbs.value|))
                                        + ShiftCount(config.infection) + ShiftCount(config.recovery)
                                        + ShiftCount(config.psi) + ShiftCount(config.removal)
  {
    if config.rhoProbs.Some? {
      RhoEventsShape(config, |config.rhoProbs.value|);
    }
  }

  /** Sorting keeps the rho events positive. */
  lemma SortedRhoPositive(config: Config)
    requires EventsDefined(config)
    ensures forall e | e in ModelEvents(config) && e.RhoSampling? :: e.rho > 0.0
  {
    var es := ModelEvents(config);
    UnsortedRhoPositive(config);
    forall e | e in es && e.RhoSampling? ensures e.rho > 0.0 {
      assert e in multiset(es);
      assert e in multiset(UnsortedEvents(config));
    }
  }

  lemma ShiftEventsAreChanges(origin: real, input: RateInput, variable: RateVariable)
    requires Dimensioned(input)
    ensures forall e | e in ShiftEvents(origin, input, variable) :: e.RateChange?
  {
  }

  lemma UnsortedRhoPositive(config: Config)
    requires EventsDefined(config)
    ensures forall e | e in UnsortedEvents(config) && e.RhoSampling? :: e.rho > 0.0
  {
    if config.rhoProbs.Some? {
      RhoEventsShape(config, |config.rhoProbs.value|);
    }
    ShiftEventsAreChanges(config.origin, config.infection, InfectionRate);
    ShiftEventsAreChanges(config.origin, config.recovery, RecoveryRate);
    ShiftEventsAreChanges(config.origin, config.psi, PsiSamplingVariable);
    ShiftEventsAreChanges(config.origin, config.removal, RemovalProb);
  }

  // ---------------------------------------------------------------------
  // The rate cache

  /** The rates at the start of the process, time 0; an absent psi variable gives 0. */
  function InitialRates(config: Config): Rates
    requires EventsDefined(config)
  {
    Rates(RateAtTimeAsWritten(config.origin, config.infection, 0.0),
          RateAtTimeAsWritten(config.origin, config.recovery, 0.0),
          if config.psi.values.Some? then RateAtTimeAsWritten(config.origin, config.psi, 0.0) else 0.0,
          RateAtTimeAsWritten(config.origin, config.removal, 0.0))
  }

  function Put(rates: Rates, variable: RateVariable, value: real): Rates
  {
    match variable
    case InfectionRate => rates.(infection := value)
    case RecoveryRate => rates.(recovery := value)
    case PsiSamplingVariable => rates.(psiVariable := value)
    case RemovalProb => rates.(removalProb := value)
  }

  /** The rates after a model event: events before the origin are skipped, rate changes set their variable. */
  function Apply(rates: Rates, e: ModelEvent): Rates
  {
    if e.time < 0.0 then rates
    else match e
      case RateChange(_, variable, value) => Put(rates, variable, value)
      case RhoSampling(_, _) => rates
  }

  /** The rates after the first `n` model events. */
  function RatesThrough(start: Rates, events: seq<ModelEvent>, n: nat): Rates
    requires n <= |events|
  {
    if n == 0 then start else Apply(RatesThrough(start, events, n - 1), events[n - 1])
  }

  /** A rate change sets exactly its variable and leaves the others; other events change nothing. */
  lemma PutMeaning(rates: Rates, e: ModelEvent)
    ensures e.time < 0.0 || e.RhoSampling? ==> Apply(rates, e) == rates
    ensures e.time >= 0.0 && e.RateChange? ==>
              var r := Apply(rates, e);
              (r.infection == if e.variable == InfectionRate then e.newValue else rates.infection) &&
              (r.recovery == if e.variable == RecoveryRate then e.newValue else rates.recovery) &&
              (r.psiVariable == if e.variable == PsiSamplingVariable then e.newValue else rates.psiVariable) &&
              (r.removalProb == if e.variable == RemovalProb then e.newValue else rates.removalProb)
  {
  }

  /**
   * The caches after a rebuild from the given starting caches: entry 0 holds
   * the rates at time 0, entry i+1 the rates after model event i for each
   * event at or after the origin; all other entries are left as they were.
   */
  predicate CacheFilled(start: Rates, proportion: bool, events: seq<ModelEvent>,
                        cache0: seq<Option<TransformedRates>>, removal0: seq<real>,
                        cache: seq<Option<TransformedRates>>, removal: seq<real>)
  {
    |cache| == |cache0| >= 1 && |removal| == |removal0| >= 1
    && cache[0] == Some(Transform(start, proportion)) && removal[0] == start.removalProb
    && (forall k :: 0 <= k < |events| && events[k].time >= 0.0 ==> k + 1 < |cache| && k + 1 < |removal|)
    && (forall j {:trigger cache[j]} :: 1 <= j <= |events| && j < |cache| && events[j - 1].time >= 0.0 ==>
          cache[j] == Some(Transform(RatesThrough(start, events, j), proportion)))
    && (forall j {:trigger removal[j]} :: 1 <= j <= |events| && j < |removal| && events[j - 1].time >= 0.0 ==>
          removal[j] == RatesThrough(start, events, j).removalProb)
    && (forall i :: 0 < i < |cache| && (i > |events| || events[i - 1].time < 0.0) ==> cache[i] == cache0[i])
    && (forall i :: 0 < i < |removal| && (i > |events| || events[i - 1].time < 0.0) ==> removal[i] == removal0[i])
  }

  /** The rebuild indexes past a cache that is too short (an exception in the code). */
  predicate CacheTooShort(events: seq<ModelEvent>, cache0: seq<Option<TransformedRates>>, removal0: seq<real>)
  {
    |cache0| == 0 || |removal0| == 0
    || exists i :: 0 <= i < |events| && events[i].time >= 0.0 && (i + 1 >= |cache0| || i + 1 >= |removal0|)
  }

  /** The caches the rebuild starts from: allocated with one entry per interval when still empty. */
  function StartCache(events: seq<ModelEvent>, cache: seq<Option<TransformedRates>>): seq<Option<TransformedRates>>
  {
    if cache == [] then seq(|events| + 1, _ => None) else cache
  }

  function StartRemoval(events: seq<ModelEvent>, removal: Option<seq<real>>): seq<real>
  {
    match removal
    case None => seq(|events| + 1, _ => 0.0)
    case Some(r) => r
  }

  /** Freshly allocated caches always have room for every interval. */
  lemma FreshCachesFit(events: seq<ModelEvent>)
    ensures !CacheTooShort(events, StartCache(events, []), StartRemoval(events, None))
  {
  }

  /**
   * The loop of update over the model events: the rates after each event at
   * or after the origin are transformed into the next cache entry. It fails
   * exactly where an entry it must write is missing.
   */
  method FillCaches(events: seq<ModelEvent>, start: Rates, proportion: bool,
                    cache0: seq<Option<TransformedRates>>, removal0: seq<real>)
    returns (ok: bool, cache: seq<Option<TransformedRates>>, removals: seq<real>)
    ensures ok <==> !CacheTooShort(events, cache0, removal0)
    ensures ok ==> CacheFilled(start, proportion, events, cache0, removal0, cache, removals)
  {
    cache, removals := cache0, removal0;
    if |cache| == 0 || |removals| == 0 {
      return false, cache, removals;
    }
    var currentRates := start;
    cache := cache[0 := Some(Transform(currentRates, proportion))];
    removals := removals[0 := currentRates.removalProb];
    for i := 0 to |events|
      invariant |cache| == |cache0| && |removals| == |removal0|
      invariant currentRates == RatesThrough(start, events, i)
      invariant cache[0] == Some(Transform(start, proportion))
      invariant removals[0] == start.removalProb
      invariant forall k :: 0 <= k < i && events[k].time >= 0.0 ==> k + 1 < |cache| && k + 1 < |removals|
      invariant forall j {:trigger cache[j]} :: 1 <= j <= i && j < |cache| && events[j - 1].time >= 0.0 ==>
                  cache[j] == Some(Transform(RatesThrough(start, events, j), proportion))
      invariant forall j {:trigger removals[j]} :: 1 <= j <= i && j < |removals| && events[j - 1].time >= 0.0 ==>
                  removals[j] == RatesThrough(start, events, j).removalProb
      invariant forall k :: 0 < k < |cache| && (k > i || events[k - 1].time < 0.0) ==> cache[k] == cache0[k]
      invariant forall k :: 0 < k < |removals| && (k > i || events[k - 1].time < 0.0) ==> removals[k] == removal0[k]
    {
      var modelEvent := events[i];
      if modelEvent.time < 0.0 {
        continue;
      }
      if modelEvent.RateChange? {
        currentRates := Put(currentRates, modelEvent.variable, modelEvent.newValue);
      }
      if i + 1 >= |cache| || i + 1 >= |removals| {
        return false, cache, removals;
      }
      cache := cache[i + 1 := Some(Transform(currentRates, proportion))];
      removals := removals[i + 1 := currentRates.removalProb];
    }
    return true, cache, removals;
  }

  // ---------------------------------------------------------------------
  // timesEqual, timesLEQ

  function Abs(x: real): real
  {
    if x < 0.0 then -x else x
  }

  predicate TimesEqual(tolerance: real, a: real, b: real)
  {
    Abs(a - b) < tolerance
  }

  predicate TimesLEQ(tolerance: real, a: real, b: real)
  {
    a < b || TimesEqual(tolerance, a, b)
  }

  /** Equality within tolerance is symmetric and, for a positive tolerance, reflexive; LEQ extends <= by the tolerance. */
  lemma TimesCompare(tolerance: real, a: real, b: real)
    ensures TimesEqual(tolerance, a, b) <==> TimesEqual(tolerance, b, a)
    ensures tolerance > 0.0 ==> TimesEqual(tolerance, a, a)
    ensures tolerance > 0.0 && a <= b ==> TimesLEQ(tolerance, a, b)
    ensures TimesLEQ(tolerance, a, b) <==> a < b || (b <= a < b + tolerance)
  {
  }

  // ---------------------------------------------------------------------
  // The model object

  /** Shift times are given without one more value than there are shifts. */
  predicate Mismatched(input: RateInput)
  {
    input.shiftTimes.Some? && (input.values.None? || |input.values.value| != |input.shiftTimes.value| + 1)
  }

  class EpidemicModel {
    var config: Config
    var tolerance: real
    var modelEventList: seq<ModelEvent>
    var rateCache: seq<Option<TransformedRates>>
    var removalProbCache: Option<seq<real>>
    var ratesDirty: bool

    constructor(config: Config, tolerance: real)
      ensures this.config == config && this.tolerance == tolerance
      ensures modelEventList == [] && rateCache == [] && removalProbCache.None? && !ratesDirty
    {
      this.config := config;
      this.tolerance := tolerance;
      modelEventList := [];
      rateCache := [];
      removalProbCache := None;
      ratesDirty := false;
    }

    /** initAndValidate: psi and removal values must have one more element than their shift times. */
    method InitAndValidate() returns (r: Result<(), string>)
      modifies this`ratesDirty
      ensures r.Err? <==> Mismatched(config.psi) || Mismatched(config.removal)
      ensures r.Ok? ==> ratesDirty
      ensures r.Err? ==> ratesDirty == old(ratesDirty)
    {
      if Mismatched(config.psi) {
        return Err("Psi sampling variable and variable shift time dimensions don't match.");
      }
      if Mismatched(config.removal) {
        return Err("Removal prob and and removal prob shift time dimensions don't match.");
      }
      ratesDirty := true;
      return Ok(());
    }

    /** binarySearch as written (backward early returns convert imin). */
    method BinarySearchAsWritten(shiftTimes: seq<real>, backwards: bool, time: real) returns (r: int)
      ensures r == SearchLoop(ForwardTimes(config.origin, shiftTimes, backwards), time, 0, |shiftTimes|, backwards, false)
    {
      var fs := ForwardTimes(config.origin, shiftTimes, backwards);
      var n := |shiftTimes| + 1;
      var imin, imax := 0, n - 1;
      while imax > imin
        invariant 0 <= imin <= imax <= |shiftTimes|
        invariant SearchLoop(fs, time, imin, imax, backwards, false) == SearchLoop(fs, time, 0, |shiftTimes|, backwards, false)
        decreases imax - imin
      {
        var imid := Mid(imin, imax);
        assert imin <= imid < imax && fs[imid] == ForwardTime(config.origin, shiftTimes, imid, backwards);
        assert imid > 0 ==> fs[imid - 1] == ForwardTime(config.origin, shiftTimes, imid - 1, backwards);
        if imid == n - 1 || ForwardTime(config.origin, shiftTimes, imid, backwards) > time {
          if imid == 0 || ForwardTime(config.origin, shiftTimes, imid - 1, backwards) <= time {
            if backwards {
              return n - 1 - imin;
            } else {
              return imid;
            }
          } else {
            imax := imid;
          }
        } else {
          imin := imid + 1;
        }
      }
      if backwards {
        return n - 1 - imin;
      } else {
        return imin;
      }
    }

    /** binarySearch with the backward early return converting imid: the interval of `time`, from the end when backward. */
    method BinarySearch(shiftTimes: seq<real>, backwards: bool, time: real) returns (r: int)
      ensures r == SearchLoop(ForwardTimes(config.origin, shiftTimes, backwards), time, 0, |shiftTimes|, backwards, true)
    {
      var fs := ForwardTimes(config.origin, shiftTimes, backwards);
      var n := |shiftTimes| + 1;
      var imin, imax := 0, n - 1;
      while imax > imin
        invariant 0 <= imin <= imax <= |shiftTimes|
        invariant SearchLoop(fs, time, imin, imax, backwards, true) == SearchLoop(fs, time, 0, |shiftTimes|, backwards, true)
        decreases imax - imin
      {
        var imid := Mid(imin, imax);
        assert imin <= imid < imax && fs[imid] == ForwardTime(config.origin, shiftTimes, imid, backwards);
        assert imid > 0 ==> fs[imid - 1] == ForwardTime(config.origin, shiftTimes, imid - 1, backwards);
        if imid == n - 1 || ForwardTime(config.origin, shiftTimes, imid, backwards) > time {
          if imid == 0 || ForwardTime(config.origin, shiftTimes, imid - 1, backwards) <= time {
            if backwards {
              return n - 1 - imid;
            } else {
              return imid;
            }
          } else {
            imax := imid;
          }
        } else {
          imin := imid + 1;
        }
      }
      if backwards {
        return n - 1 - imin;
      } else {
        return imin;
      }
    }

    /** getRateAtTime, looking the interval up with binarySearch as written. */
    method GetRateAtTime(input: RateInput, time: real) returns (r: real)
      requires Dimensioned(input)
      ensures r == RateAtTimeAsWritten(config.origin, input, time)
    {
      if input.values.Some? {
        if input.shiftTimes.Some? {
          var idx := BinarySearchAsWritten(input.shiftTimes.value, input.backward, time);
          return input.values.value[idx];
        } else {
          return input.values.value[0];
        }
      } else {
        return 0.0;
      }
    }

    /** addRateShiftEvents: one rate change per shift time, appended in order. */
    method AddRateShiftEvents(input: RateInput, variable: RateVariable)
      requires Dimensioned(input)
      modifies this`modelEventList
      ensures modelEventList == old(modelEventList) + ShiftEvents(config.origin, input, variable)
    {
      if input.shiftTimes.Some? {
        var ts := input.shiftTimes.value;
        ghost var start := modelEventList;
        for i := 0 to |ts|
          invariant modelEventList == start + ShiftEvents(config.origin, input, variable)[..i]
        {
          var event := RateChange(ForwardTime(config.origin, ts, i, input.backward), variable,
                                  RateInIntervalAsWritten(input.values.value, i + 1, input.backward));
          assert ShiftEvents(config.origin, input, variable)[..i + 1] == ShiftEvents(config.origin, input, variable)[..i] + [event];
          modelEventList := modelEventList + [event];
        }
        assert ShiftEvents(config.origin, input, variable)[..|ts|] == ShiftEvents(config.origin, input, variable);
      }
    }

    /** updateModelEventList: rho events, then the rate changes of the four rates, sorted by time. */
    method UpdateModelEventList()
      requires EventsDefined(config)
      modifies this`modelEventList
      ensures modelEventList == ModelEvents(config)
    {
      modelEventList := [];
      if config.rhoProbs.Some? {
        var rho := config.rhoProbs.value;
        for i := 0 to |rho|
          invariant modelEventList == RhoEvents(config, i)
        {
          if rho[i] <= 0.0 {
            continue;
          }
          var event := RhoSampling(ForwardTime(config.origin, config.rhoTimes.value, i, config.rhoBackward), rho[i]);
          modelEventList := modelEventList + [event];
        }
      }
      AddRateShiftEvents(config.infection, InfectionRate);
      AddRateShiftEvents(config.recovery, RecoveryRate);
      AddRateShiftEvents(config.psi, PsiSamplingVariable);
      AddRateShiftEvents(config.removal, RemovalProb);
      modelEventList := SortBy(modelEventList, EventTime);
    }

    /**
     * update: nothing while the rates are clean; otherwise rebuild the event
     * list, then fill the caches interval by interval and mark the rates
     * clean. `ok` is false where the code indexes past a cache that an
     * earlier rebuild allocated too short.
     */
    method Update() returns (ok: bool)
      requires EventsDefined(config)
      modifies this
      ensures config == old(config) && tolerance == old(tolerance)
      ensures !old(ratesDirty) ==> ok && !ratesDirty && modelEventList == old(modelEventList)
                                   && rateCache == old(rateCache) && removalProbCache == old(removalProbCache)
      ensures old(ratesDirty) ==> modelEventList == ModelEvents(config)
      ensures old(ratesDirty) ==>
                (ok <==> !CacheTooShort(ModelEvents(config), StartCache(ModelEvents(config), old(rateCache)),
                                          StartRemoval(ModelEvents(config), old(removalProbCache))))
      ensures old(ratesDirty) && ok ==>
                !ratesDirty && removalProbCache.Some? &&
                CacheFilled(InitialRates(config), config.usePsiSamplingProportion, ModelEvents(config),
                            StartCache(ModelEvents(config), old(rateCache)),
                            StartRemoval(ModelEvents(config), old(removalProbCache)),
                            rateCache, removalProbCache.value)
      ensures old(ratesDirty) && !ok ==> ratesDirty
    {
      if !ratesDirty {
        return true;
      }
      UpdateModelEventList();
      var st := RatesAtOrigin();
      ok := RebuildCaches(st);
    }

    /** The part of update after the event list is rebuilt: the caches filled from the rates at time 0, `start`. */
    method RebuildCaches(start: Rates) returns (ok: bool)
      requires EventsDefined(config) && ratesDirty
      modifies this`rateCache, this`removalProbCache, this`ratesDirty
      ensures ok <==> !CacheTooShort(modelEventList, StartCache(modelEventList, old(rateCache)),
                                     StartRemoval(modelEventList, old(removalProbCache)))
      ensures ok ==> !ratesDirty && removalProbCache.Some?
      ensures ok ==> CacheFilled(start, config.usePsiSamplingProportion, modelEventList,
                                 StartCache(modelEventList, old(rateCache)),
                                 StartRemoval(modelEventList, old(removalProbCache)),
                                 rateCache, removalProbCache.value)
      ensures !ok ==> ratesDirty
    {
      var events := modelEventList;
      var currentRates := start;
      var cache := StartCache(events, rateCache);
      var removals := StartRemoval(events, removalProbCache);
      ok, cache, removals := FillCaches(events, currentRates, config.usePsiSamplingProportion, cache, removals);
      rateCache := cache;
      removalProbCache := Some(removals);
      if ok {
        ratesDirty := false;
      }
    }

    /** The rates update starts from: those in force at time 0, an absent psi variable giving 0. */
    method RatesAtOrigin() returns (r: Rates)
      requires EventsDefined(config)
      ensures r == InitialRates(config)
    {
      var infection := GetRateAtTime(config.infection, 0.0);
      var recovery := GetRateAtTime(config.recovery, 0.0);
      var psi := 0.0;
      if config.psi.values.Some? {
        psi := GetRateAtTime(config.psi, 0.0);
      }
      var removal := GetRateAtTime(config.removal, 0.0);
      return Rates(infection, recovery, psi, removal);
    }

    /** requiresRecalculation: any change to the inputs marks the rates dirty. */
    method RequiresRecalculation() returns (b: bool)
      modifies this`ratesDirty
      ensures b && ratesDirty
    {
      ratesDirty := true;
      return true;
    }

    /** restore: the rates are recomputed on next use. */
    method Restore()
      modifies this`ratesDirty
      ensures ratesDirty
    {
      ratesDirty := true;
    }
  }
}
