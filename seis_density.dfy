/**
 * The SEIS likelihood debugging script: the loader of an ExpoTree-style event
 * file (one "age flag" line per tree node), the parameter record, the particle
 * update stub and the particle filter loop over the tree's intervals.
 */
module SeisDensity {
  import opened Wrappers
  import opened Text
  import opened Sorting
  import opened Doubles

  /** A tree event: sample (leaf) or coalescence at an age; `time` is unset until the loader assigns it. */
  datatype TreeEvent = TreeEvent(age: real, isLeaf: bool, time: Option<real>)

  /** Where the loader stops: float() rejects field 0, or the line has no field 1. */
  datatype LoadError = FloatError(line: nat) | MissingField(line: nat)

  /** The parameters of the SEIS model. */
  datatype Params = Params(beta: real, alpha: real, gamma: real, psi: real, n: int)

  /** The state of one particle. */
  datatype ParticleState = ParticleState(s: int, e: int, i: int, r: int, kE: int, kI: int)

  // ---------------------------------------------------------------------
  // loadTreeEvents

  /** The fields of a line: stripped, then split on single spaces (never empty). */
  function Fields(line: string): (r: seq<string>)
    ensures |r| >= 1
  {
    PySplit(PyStrip(line), ' ')
  }

  /** The fields of every line of the file. */
  function LineFields(lines: seq<string>): (r: seq<seq<string>>)
    ensures |r| == |lines| && forall k :: 0 <= k < |r| ==> |r[k]| >= 1
  {
    seq(|lines|, k requires 0 <= k < |lines| => Fields(lines[k]))
  }

  /** One line's fields: field 0 is the age and field 1 == "0" marks a leaf. */
  function ParseFields(elements: seq<string>, index: nat, parseFloat: string -> Option<real>): (r: Result<TreeEvent, LoadError>)
    requires |elements| >= 1
    ensures r.Ok? ==> |elements| >= 2 && parseFloat(elements[0]).Some? &&
                      r.value == TreeEvent(parseFloat(elements[0]).value, elements[1] == "0", None)
    ensures r.Err? <==> parseFloat(elements[0]).None? || |elements| < 2
    ensures r.Err? ==> r.error.line == index && (r.error.FloatError? <==> parseFloat(elements[0]).None?)
  {
    match parseFloat(elements[0])
    case None => Err(FloatError(index))
    case Some(age) =>
      if |elements| < 2 then Err(MissingField(index))
      else Ok(TreeEvent(age, elements[1] == "0", None))
  }

  /** The events of lines from..|fields|, in file order, or the error of the first bad line. */
  function ParseLines(fields: seq<seq<string>>, from: nat, parseFloat: string -> Option<real>): Result<seq<TreeEvent>, LoadError>
    requires from <= |fields| && forall k :: 0 <= k < |fields| ==> |fields[k]| >= 1
    decreases |fields| - from
  {
    if from == |fields| then Ok([])
    else
      match ParseFields(fields[from], from, parseFloat)
      case Err(e) => Err(e)
      case Ok(ev) =>
        match ParseLines(fields, from + 1, parseFloat)
        case Err(e) => Err(e)
        case Ok(rest) => Ok([ev] + rest)
  }

  /** Every line parses exactly when the loader gets past them all; then each gives one event, in order. */
  lemma {:induction false} ParseLinesOk(fields: seq<seq<string>>, from: nat, parseFloat: string -> Option<real>)
    requires from <= |fields| && forall k :: 0 <= k < |fields| ==> |fields[k]| >= 1
    ensures ParseLines(fields, from, parseFloat).Ok? <==>
              forall k :: from <= k < |fields| ==> ParseFields(fields[k], k, parseFloat).Ok?
    ensures ParseLines(fields, from, parseFloat).Ok? ==>
              |ParseLines(fields, from, parseFloat).value| == |fields| - from &&
              forall k :: from <= k < |fields| ==> Ok(ParseLines(fields, from, parseFloat).value[k - from]) == ParseFields(fields[k], k, parseFloat)
    decreases |fields| - from
  {
    if from < |fields| {
      ParseLinesOk(fields, from + 1, parseFloat);
    }
  }

  /** A failing load reports the first line that does not parse. */
  lemma {:induction false} ParseLinesErr(fields: seq<seq<string>>, from: nat, parseFloat: string -> Option<real>)
    requires from <= |fields| && forall k :: 0 <= k < |fields| ==> |fields[k]| >= 1
    requires ParseLines(fields, from, parseFloat).Err?
    ensures var bad := ParseLines(fields, from, parseFloat).error.line;
            from <= bad < |fields| &&
            ParseFields(fields[bad], bad, parseFloat) == Err(ParseLines(fields, from, parseFloat).error) &&
            forall k :: from <= k < bad ==> ParseFields(fields[k], k, parseFloat).Ok?
    decreases |fields| - from
  {
    if ParseFields(fields[from], from, parseFloat).Ok? {
      ParseLinesErr(fields, from + 1, parseFloat);
    }
  }

  /** The sort key: events are sorted by decreasing age. */
  function NegAge(e: TreeEvent): real
  {
    -e.age
  }

  /** The forward times: each event's age below the first (oldest) event's age. */
  function WithTimes(es: seq<TreeEvent>): (r: seq<TreeEvent>)
    ensures |r| == |es|
  {
    seq(|es|, k requires 0 <= k < |es| => es[k].(time := Some(es[0].age - es[k].age)))
  }

  /** What loadTreeEvents returns. */
  function Loaded(lines: seq<string>, parseFloat: string -> Option<real>): Result<seq<TreeEvent>, LoadError>
  {
    match ParseLines(LineFields(lines), 0, parseFloat)
    case Err(e) => Err(e)
    case Ok(es) => Ok(WithTimes(SortBy(es, NegAge)))
  }

  /** loadTreeEvents: split every line, parse them in order, sort by decreasing age (stable), then assign forward times. */
  method LoadTreeEvents(lines: seq<string>, parseFloat: string -> Option<real>) returns (r: Result<seq<TreeEvent>, LoadError>)
    ensures r == Loaded(lines, parseFloat)
  {
    var parsed := ParseAll(LineFields(lines), parseFloat);
    if parsed.Err? {
      return Err(parsed.error);
    }
    var treeEvents := SortBy(parsed.value, NegAge);
    treeEvents := AssignTimes(treeEvents);
    return Ok(treeEvents);
  }

  /** The loop of loadTreeEvents that turns the lines' fields into events, stopping at the first bad line. */
  method ParseAll(fields: seq<seq<string>>, parseFloat: string -> Option<real>) returns (r: Result<seq<TreeEvent>, LoadError>)
    requires forall k :: 0 <= k < |fields| ==> |fields[k]| >= 1
    ensures r == ParseLines(fields, 0, parseFloat)
  {
    var treeEvents: seq<TreeEvent> := [];
    var k := 0;
    assert ParseLines(fields, 0, parseFloat).Ok? ==> [] + ParseLines(fields, 0, parseFloat).value == ParseLines(fields, 0, parseFloat).value;
    while k < |fields|
      invariant 0 <= k <= |fields|
      invariant ParseLines(fields, 0, parseFloat) == After(treeEvents, ParseLines(fields, k, parseFloat))
    {
      var ev := ParseFields(fields[k], k, parseFloat);
      if ev.Err? {
        return Err(ev.error);
      }
      var rest := ParseLines(fields, k + 1, parseFloat);
      assert ParseLines(fields, k, parseFloat) == After([ev.value], rest);
      assert rest.Ok? ==> (treeEvents + [ev.value]) + rest.value == treeEvents + ([ev.value] + rest.value);
      treeEvents := treeEvents + [ev.value];
      k := k + 1;
    }
    assert treeEvents + [] == treeEvents;
    return Ok(treeEvents);
  }

  /** The events `done` followed by those of `rest`, or the error of `rest`. */
  function After(done: seq<TreeEvent>, rest: Result<seq<TreeEvent>, LoadError>): Result<seq<TreeEvent>, LoadError>
  {
    match rest
    case Err(e) => Err(e)
    case Ok(es) => Ok(done + es)
  }

  /** The loop of loadTreeEvents that sets each event's time to the first event's age minus its own. */
  method AssignTimes(events: seq<TreeEvent>) returns (treeEvents: seq<TreeEvent>)
    ensures treeEvents == WithTimes(events)
  {
    treeEvents := events;
    var j := 0;
    while j < |treeEvents|
      invariant 0 <= j <= |treeEvents| && |treeEvents| == |events|
      invariant j > 0 ==> treeEvents[0].age == events[0].age
      invariant forall m :: 0 <= m < j ==> treeEvents[m] == WithTimes(events)[m]
      invariant forall m :: j <= m < |treeEvents| ==> treeEvents[m] == events[m]
    {
      treeEvents := treeEvents[j := treeEvents[j].(time := Some(treeEvents[0].age - treeEvents[j].age))];
      j := j + 1;
    }
  }

  /**
   * The events as the loader arranges them: in decreasing age, with forward
   * times that start at 0, never decrease and are never negative, each being
   * the oldest age minus the event's age; no event is lost or added.
   */
  lemma ArrangedOrder(parsed: seq<TreeEvent>)
    ensures var es := WithTimes(SortBy(parsed, NegAge));
            |es| == |parsed| &&
            (forall i, j :: 0 <= i < j < |es| ==> es[i].age >= es[j].age) &&
            (forall k :: 0 <= k < |es| ==> es[k].time == Some(es[0].age - es[k].age)) &&
            (|es| > 0 ==> es[0].time == Some(0.0)) &&
            (forall i, j :: 0 <= i < j < |es| ==> es[i].time.value <= es[j].time.value) &&
            (forall k :: 0 <= k < |es| ==> es[k].time.value >= 0.0) &&
            multiset(SortBy(parsed, NegAge)) == multiset(parsed)
  {
    var sorted := SortBy(parsed, NegAge);
    assert forall i, j :: 0 <= i < j < |sorted| ==> NegAge(sorted[i]) <= NegAge(sorted[j]);
  }

  /** Events of equal age keep the order of their lines. */
  lemma ArrangedStable(parsed: seq<TreeEvent>, age: real)
    ensures WithKey(SortBy(parsed, NegAge), NegAge, -age) == WithKey(parsed, NegAge, -age)
  {
    SortByStable(parsed, NegAge, -age);
  }

  // ---------------------------------------------------------------------
  // updateParticle and computeLikelihood

  /** The particle update is a stub: it returns the weight 1.0 whatever it is given. */
  function UpdateParticle(state: ParticleState, params: Params, t0: Option<real>, finalTreeEvent: TreeEvent): (p: real)
    ensures p == 1.0
  {
    1.0
  }

  /** The particle every run starts from: N-1 susceptibles, one infective, one lineage in I. */
  function InitialParticle(params: Params): ParticleState
  {
    ParticleState(params.n - 1, 0, 1, 0, 0, 1)
  }

  function Sum(xs: seq<real>): real
  {
    if xs == [] then 0.0 else xs[0] + Sum(xs[1..])
  }

  /** numpy.mean: NaN for an empty array. */
  function Mean(xs: seq<real>): Double
  {
    if xs == [] then NaN else Finite(Sum(xs) / |xs| as real)
  }

  lemma {:induction false} SumOnes(xs: seq<real>)
    requires forall k :: 0 <= k < |xs| ==> xs[k] == 1.0
    ensures Sum(xs) == |xs| as real
  {
    if xs != [] {
      SumOnes(xs[1..]);
    }
  }

  /** The failure of computeLikelihood as the script has it. */
  datatype ScriptError = NameError(name: string)

  /**
   * computeLikelihood as written: after building the particles it calls
   * `ones`, a name the script never imports, so every call fails.
   */
  method ComputeLikelihoodAsWritten(treeEvents: seq<TreeEvent>, params: Params, nParticles: nat)
    returns (r: Result<Double, ScriptError>)
    ensures r == Err(NameError("ones"))
  {
    var particles: seq<ParticleState> := [];
    for pidx := 0 to nParticles {
      particles := particles + [InitialParticle(params)];
    }
    return Err(NameError("ones"));
  }

  /**
   * computeLikelihood with numpy's `ones`, `log` and `mean` in scope: one
   * log-mean-weight per interval 1..n-1. With the stub every weight is 1.0,
   * so each interval adds ln(1.0); with no particles the mean is NaN.
   */
  method ComputeLikelihood(treeEvents: seq<TreeEvent>, params: Params, nParticles: nat, ln: real -> real)
    returns (logP: Double)
    ensures |treeEvents| <= 1 ==> logP == Finite(0.0)
    ensures |treeEvents| > 1 && nParticles > 0 ==> logP == Finite((|treeEvents| - 1) as real * ln(1.0))
    ensures |treeEvents| > 1 && nParticles == 0 ==> logP.NaN?
  {
    logP := Finite(0.0);
    var particles: seq<ParticleState> := [];
    for pidx := 0 to nParticles
      invariant |particles| == pidx
    {
      particles := particles + [InitialParticle(params)];
    }
    var weights := seq(nParticles, _ => 1.0);
    var i := 1;
    while i < |treeEvents|
      invariant 1 <= i && (|treeEvents| > 0 ==> i <= |treeEvents|) && (|treeEvents| <= 1 ==> i == 1)
      invariant |weights| == nParticles
      invariant forall k :: 0 <= k < nParticles ==> weights[k] == 1.0
      invariant nParticles > 0 ==> logP == Finite((i - 1) as real * ln(1.0))
      invariant nParticles == 0 ==> (if i == 1 then logP == Finite(0.0) else logP.NaN?)
    {
      for pidx := 0 to nParticles
        invariant |weights| == nParticles
        invariant forall k :: 0 <= k < nParticles ==> weights[k] == 1.0
      {
        weights := weights[pidx := UpdateParticle(particles[pidx], params, treeEvents[i - 1].time, treeEvents[i])];
      }
      if nParticles > 0 {
        SumOnes(weights);
        assert Sum(weights) / nParticles as real == 1.0;
        assert Mean(weights) == Finite(1.0);
        assert (i - 1) as real * ln(1.0) + ln(1.0) == i as real * ln(1.0);
      }
      logP := Add(logP, LogOf(ln, Mean(weights)));
      i := i + 1;
    }
  }
}
