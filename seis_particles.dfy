/**
 * The particle filter of the SEIS tree density as values: the state of a
 * particle (susceptibles, and the exposed and infected hosts of every
 * lineage), the reaction propensities, the Gillespie simulation of one
 * tree interval, the weight of the observed tree event, and the filter
 * over all intervals with resampling. Random draws are given as
 * parameters, and so are the exponential, logarithm and log-gamma
 * functions of the library.
 */
module SEISParticles {
  import opened Wrappers
  import opened Doubles
  import opened Sorting
  import opened Selection
  import opened RealFacts

  /** A node of the tree: its number, height, whether it is a leaf, and the numbers of its two children. */
  datatype SNode = SNode(nr: nat, height: real, isLeaf: bool, left: nat, right: nat)

  /** The rates of infection, activation, recovery and sampling, and the sampling probability at the present. */
  datatype Rates = Rates(infect: real, activate: real, recover: real, samp: real, pSamp: real)

  /** One particle: the susceptibles, and the exposed and infected hosts of every lineage. */
  datatype PState = PState(S: int, E: seq<int>, I: seq<int>)

  /** The draws of one Gillespie step: the waiting time drawn for the total rate, and a uniform draw in [0, 1). */
  datatype Step = Step(dt: real, u: real)

  /** The draws one particle uses in one interval: its steps in order, and the coin of a branching event. */
  datatype ParticleDraws = ParticleDraws(steps: seq<Step>, coin: bool)

  /** The draws of one interval: one set per particle, and one uniform draw in [0, 1) per resampled slot. */
  datatype IntervalDraws = IntervalDraws(particles: seq<ParticleDraws>, picks: seq<real>)

  /** A reaction of one lineage. */
  datatype Reaction = Infection(j: nat) | Activation(j: nat) | Recovery(j: nat)

  /** The counts of a new particle with room for n lineages: no hosts at all. */
  function Blank(n: nat): (st: PState)
    ensures Shaped(st, n) && st.S == 0 && forall j :: 0 <= j < n ==> st.E[j] == 0 && st.I[j] == 0
  {
    PState(0, seq(n, _ => 0), seq(n, _ => 0))
  }

  predicate Shaped(st: PState, n: nat)
  {
    |st.E| == n && |st.I| == n
  }

  /** No lineage has a negative number of exposed or infected hosts. */
  predicate NonNegCounts(st: PState)
  {
    (forall k :: 0 <= k < |st.E| ==> st.E[k] >= 0) && (forall k :: 0 <= k < |st.I| ==> st.I[k] >= 0)
  }

  predicate NonNegRates(r: Rates)
  {
    r.infect >= 0.0 && r.activate >= 0.0 && r.recover >= 0.0
  }

  // ---------------------------------------------------------------------
  // Propensities

  function InfectProp(r: Rates, st: PState, j: nat): real
    requires j < |st.I|
  {
    r.infect * (st.S as real) * (st.I[j] as real)
  }

  function ActivateProp(r: Rates, st: PState, j: nat): real
    requires j < |st.E|
  {
    r.activate * (st.E[j] as real)
  }

  function RecoverProp(r: Rates, st: PState, j: nat): real
    requires j < |st.I|
  {
    r.recover * (st.I[j] as real)
  }

  /** The propensity of a reaction. */
  function Propensity(r: Rates, st: PState, rx: Reaction): real
    requires rx.j < |st.E| && rx.j < |st.I|
  {
    match rx
    case Infection(j) => InfectProp(r, st, j)
    case Activation(j) => ActivateProp(r, st, j)
    case Recovery(j) => RecoverProp(r, st, j)
  }

  /**
   * The propensities of lineages 0..n-1 in the order they are subtracted
   * from the draw: infection, activation and recovery of each lineage.
   */
  function Slots(r: Rates, st: PState, n: nat): (w: seq<real>)
    requires n <= |st.E| && n <= |st.I|
    ensures |w| == 3 * n
  {
    if n == 0 then []
    else Slots(r, st, n - 1) + [InfectProp(r, st, n - 1), ActivateProp(r, st, n - 1), RecoverProp(r, st, n - 1)]
  }

  /** The reaction of slot c. */
  function ReactionAt(c: nat): Reaction
  {
    if c % 3 == 0 then Infection(c / 3) else if c % 3 == 1 then Activation(c / 3) else Recovery(c / 3)
  }

  /** Slots 3j, 3j + 1 and 3j + 2 are the infection, activation and recovery of lineage j. */
  lemma ReactionAtSlot(j: nat)
    ensures ReactionAt(3 * j) == Infection(j)
    ensures ReactionAt(3 * j + 1) == Activation(j)
    ensures ReactionAt(3 * j + 2) == Recovery(j)
  {
  }

  /** Slot 3j + k holds the propensity of reaction k of lineage j. */
  lemma {:induction false} SlotsAt(r: Rates, st: PState, n: nat, j: nat)
    requires n <= |st.E| && n <= |st.I| && j < n
    ensures Slots(r, st, n)[3 * j] == InfectProp(r, st, j)
    ensures Slots(r, st, n)[3 * j + 1] == ActivateProp(r, st, j)
    ensures Slots(r, st, n)[3 * j + 2] == RecoverProp(r, st, j)
  {
    if j < n - 1 {
      SlotsAt(r, st, n - 1, j);
    }
  }

  /** Every slot holds the propensity of its reaction. */
  lemma SlotReaction(r: Rates, st: PState, n: nat, c: nat)
    requires n <= |st.E| && n <= |st.I| && c < 3 * n
    ensures ReactionAt(c).j < n && Slots(r, st, n)[c] == Propensity(r, st, ReactionAt(c))
  {
    var j := c / 3;
    assert c == 3 * j + c % 3;
    SlotsAt(r, st, n, j);
  }

  /** The total propensity of the reactions that do not sample. */
  function TotNS(r: Rates, st: PState, n: nat): real
    requires n <= |st.E| && n <= |st.I|
  {
    Total(Slots(r, st, n))
  }

  /** The total sampling propensity of lineages 0..n-1, added from the left. */
  function TotSamp(r: Rates, st: PState, n: nat): real
    requires n <= |st.I|
  {
    if n == 0 then 0.0 else TotSamp(r, st, n - 1) + r.samp * (st.I[n - 1] as real)
  }

  /** Lineage n adds its three propensities to the total, in the order they are accumulated. */
  lemma TotNSStep(r: Rates, st: PState, n: nat)
    requires n < |st.E| && n < |st.I|
    ensures TotNS(r, st, n + 1) == TotNS(r, st, n) + InfectProp(r, st, n) + ActivateProp(r, st, n) + RecoverProp(r, st, n)
  {
    var a := Slots(r, st, n);
    var w := Slots(r, st, n + 1);
    assert w == a + [InfectProp(r, st, n), ActivateProp(r, st, n), RecoverProp(r, st, n)];
    PrefixAppend(a, [InfectProp(r, st, n), ActivateProp(r, st, n), RecoverProp(r, st, n)], |a|);
    assert Prefix(w, |a|) == Total(a);
    assert Prefix(w, |a| + 1) == Total(a) + InfectProp(r, st, n);
    assert Prefix(w, |a| + 2) == Total(a) + InfectProp(r, st, n) + ActivateProp(r, st, n);
    assert Prefix(w, |a| + 3) == Total(a) + InfectProp(r, st, n) + ActivateProp(r, st, n) + RecoverProp(r, st, n);
  }

  lemma PositiveFactor(a: real, x: real)
    requires a >= 0.0 && a * x > 0.0
    ensures x > 0.0
  {
    if x <= 0.0 {
      MulNonNeg(a, -x);
    }
  }

  /** With rates and counts that are not negative and S >= 0, no propensity is negative. */
  lemma {:induction false} SlotsNonNeg(r: Rates, st: PState, n: nat)
    requires n <= |st.E| && n <= |st.I|
    requires NonNegRates(r) && NonNegCounts(st) && st.S >= 0
    ensures forall k :: 0 <= k < |Slots(r, st, n)| ==> Slots(r, st, n)[k] >= 0.0
  {
    if n > 0 {
      SlotsNonNeg(r, st, n - 1);
      var j := n - 1;
      MulNonNeg(r.infect, st.S as real);
      MulNonNeg(r.infect * (st.S as real), st.I[j] as real);
      MulNonNeg(r.activate, st.E[j] as real);
      MulNonNeg(r.recover, st.I[j] as real);
    }
  }

  // ---------------------------------------------------------------------
  // Reactions

  /** The state after a reaction: infection moves a susceptible to the lineage's exposed, activation an exposed to its infected, recovery an infected back to the susceptibles. */
  function React(st: PState, rx: Reaction): (q: PState)
    requires rx.j < |st.E| && rx.j < |st.I|
    ensures |q.E| == |st.E| && |q.I| == |st.I|
  {
    match rx
    case Infection(j) => PState(st.S - 1, st.E[j := st.E[j] + 1], st.I)
    case Activation(j) => PState(st.S, st.E[j := st.E[j] - 1], st.I[j := st.I[j] + 1])
    case Recovery(j) => PState(st.S + 1, st.E, st.I[j := st.I[j] - 1])
  }

  /**
   * The reaction loop for the draw u (already multiplied by the total):
   * the reaction of the chosen slot, or no change when u reaches past
   * every slot.
   */
  function Fire(r: Rates, st: PState, n: nat, u: real): (q: PState)
    requires n <= |st.E| && n <= |st.I|
    ensures |q.E| == |st.E| && |q.I| == |st.I|
  {
    var c := Choose(Slots(r, st, n), u);
    if c == 3 * n then st
    else
      SlotReaction(r, st, n, c);
      React(st, ReactionAt(c))
  }

  /** When slot c < 3n is chosen, its reaction fires. */
  lemma FireChosen(r: Rates, st: PState, n: nat, u: real, c: nat)
    requires n <= |st.E| && n <= |st.I| && c < 3 * n && Choose(Slots(r, st, n), u) == c
    ensures ReactionAt(c).j < n && Fire(r, st, n, u) == React(st, ReactionAt(c))
  {
    SlotReaction(r, st, n, c);
  }

  /** The hosts counted in entries 0..k-1 of a sequence of counts, added from the left. */
  function Count(s: seq<int>, k: nat): int
    requires k <= |s|
  {
    if k == 0 then 0 else Count(s, k - 1) + s[k - 1]
  }

  /** S plus every exposed and infected host. */
  function Population(st: PState): int
  {
    st.S + Count(st.E, |st.E|) + Count(st.I, |st.I|)
  }

  /** Replacing entry i by x changes the count of every prefix that holds it by the difference. */
  lemma {:induction false} CountUpdate(s: seq<int>, i: nat, x: int, k: nat)
    requires i < |s| && k <= |s|
    ensures Count(s[i := x], k) == Count(s, k) + (if i < k then x - s[i] else 0)
  {
    if k > 0 {
      CountUpdate(s, i, x, k - 1);
    }
  }

  /** Each reaction moves one host between compartments, changes only its own lineage, and keeps the population. */
  lemma ReactMeaning(st: PState, rx: Reaction)
    requires rx.j < |st.E| && rx.j < |st.I|
    ensures var q := React(st, rx);
            && Population(q) == Population(st)
            && (forall k :: 0 <= k < |st.E| && k != rx.j ==> q.E[k] == st.E[k])
            && (forall k :: 0 <= k < |st.I| && k != rx.j ==> q.I[k] == st.I[k])
  {
    var j := rx.j;
    match rx
    case Infection(_) => CountUpdate(st.E, j, st.E[j] + 1, |st.E|);
    case Activation(_) => CountUpdate(st.E, j, st.E[j] - 1, |st.E|); CountUpdate(st.I, j, st.I[j] + 1, |st.I|);
    case Recovery(_) => CountUpdate(st.I, j, st.I[j] - 1, |st.I|);
  }

  /**
   * For a draw u >= 0: below the total, exactly one reaction fires, the one
   * whose slot interval holds u, and its propensity is positive; at or above
   * the total nothing changes when no propensity is negative. Either way the
   * population is kept and lineages n.. are untouched.
   */
  lemma FireMeaning(r: Rates, st: PState, n: nat, u: real)
    requires n <= |st.E| && n <= |st.I| && 0.0 <= u
    ensures var w := Slots(r, st, n);
            var c := Choose(w, u);
            var q := Fire(r, st, n, u);
            && Population(q) == Population(st)
            && (forall k :: n <= k < |st.E| ==> q.E[k] == st.E[k])
            && (forall k :: n <= k < |st.I| ==> q.I[k] == st.I[k])
            && (u < TotNS(r, st, n) ==>
                  && c < 3 * n && ReactionAt(c).j < n && q == React(st, ReactionAt(c))
                  && Propensity(r, st, ReactionAt(c)) > 0.0
                  && Prefix(w, c) <= u < Prefix(w, c + 1))
            && ((forall k :: 0 <= k < |w| ==> w[k] >= 0.0) && TotNS(r, st, n) <= u ==> q == st)
  {
    var w := Slots(r, st, n);
    var c := Choose(w, u);
    ChooseMeaning(w, u);
    if c < 3 * n {
      SlotReaction(r, st, n, c);
      ReactMeaning(st, ReactionAt(c));
    }
  }

  /** With rates that are not negative, a fired reaction never makes a count negative. */
  lemma FireKeepsNonNeg(r: Rates, st: PState, n: nat, u: real)
    requires n <= |st.E| && n <= |st.I| && 0.0 <= u
    requires NonNegRates(r) && NonNegCounts(st)
    ensures NonNegCounts(Fire(r, st, n, u))
  {
    var w := Slots(r, st, n);
    var c := Choose(w, u);
    ChooseMeaning(w, u);
    if c < 3 * n {
      SlotReaction(r, st, n, c);
      var rx := ReactionAt(c);
      match rx
      case Infection(_) =>
      case Activation(j) => PositiveFactor(r.activate, st.E[j] as real);
      case Recovery(j) => PositiveFactor(r.recover, st.I[j] as real);
    }
  }

  // ---------------------------------------------------------------------
  // The Gillespie simulation of one interval

  /** The weight w times the factor of a step at time t: the chance exp(-(tEnd - t) * aS) of no sampling from t to tEnd. */
  function Decay(exp: real -> real, tEnd: real, t: real, aS: real, w: real): real
  {
    w * exp(-(tEnd - t) * aS)
  }

  /**
   * The simulation loop from time t to tEnd over lineages 0..n-1, with the
   * weight w so far: with no propensity the waiting time is infinite and
   * the loop ends; otherwise a step's waiting time ends the loop when it
   * passes tEnd, and else the time advances and the reaction fires. The
   * weight takes exp(-(tEnd - t) * total sampling rate) at every step.
   * None when the given steps run out before the loop ends.
   */
  function Run(exp: real -> real, r: Rates, st: PState, n: nat, t: real, tEnd: real, steps: seq<Step>, w: real): (o: Option<(PState, real)>)
    requires n <= |st.E| && n <= |st.I|
    ensures o.Some? ==> |o.value.0.E| == |st.E| && |o.value.0.I| == |st.I|
    decreases |steps|, 1
  {
    var aNS := TotNS(r, st, n);
    var aS := TotSamp(r, st, n);
    if !(aNS > 0.0) then Some((st, Decay(exp, tEnd, t, aS, w)))
    else if steps == [] then None
    else if t + steps[0].dt > tEnd then Some((st, Decay(exp, tEnd, t, aS, w)))
    else RunOn(exp, r, st, n, t, tEnd, steps, w)
  }

  /** A step that does not end the loop, and the loop after it. */
  function RunOn(exp: real -> real, r: Rates, st: PState, n: nat, t: real, tEnd: real, steps: seq<Step>, w: real): (o: Option<(PState, real)>)
    requires n <= |st.E| && n <= |st.I| && steps != []
    ensures o.Some? ==> |o.value.0.E| == |st.E| && |o.value.0.I| == |st.I|
    decreases |steps|, 0
  {
    var nx := Advance(exp, r, st, n, t, tEnd, steps[0], w);
    Run(exp, r, nx.0, n, nx.1, tEnd, steps[1..], nx.2)
  }

  /**
   * One step of the loop that does not end it: the time moves on by the
   * waiting time, the reaction picked by the draw (scaled by the total
   * propensity) fires, and the weight takes the factor at the new time.
   */
  function Advance(exp: real -> real, r: Rates, st: PState, n: nat, t: real, tEnd: real, s: Step, w: real): (nx: (PState, real, real))
    requires n <= |st.E| && n <= |st.I|
    ensures |nx.0.E| == |st.E| && |nx.0.I| == |st.I|
  {
    var t1 := t + s.dt;
    (Fire(r, st, n, Draw(s.u, TotNS(r, st, n))), t1, Decay(exp, tEnd, t1, TotSamp(r, st, n), w))
  }

  /** The uniform draw scaled to the total propensity. */
  function Draw(u: real, total: real): real
  {
    u * total
  }

  /** The loop ends at once when there is no propensity or the first waiting time passes tEnd. */
  lemma RunStops(exp: real -> real, r: Rates, st: PState, n: nat, t: real, tEnd: real, steps: seq<Step>, w: real)
    requires n <= |st.E| && n <= |st.I|
    requires !(TotNS(r, st, n) > 0.0) || (steps != [] && t + steps[0].dt > tEnd)
    ensures Run(exp, r, st, n, t, tEnd, steps, w) == Some((st, Decay(exp, tEnd, t, TotSamp(r, st, n), w)))
  {
  }

  /** With a propensity and no steps left the loop fails. */
  lemma RunOut(exp: real -> real, r: Rates, st: PState, n: nat, t: real, tEnd: real, w: real)
    requires n <= |st.E| && n <= |st.I| && TotNS(r, st, n) > 0.0
    ensures Run(exp, r, st, n, t, tEnd, [], w) == None
  {
  }

  /** A step that does not end the loop advances it, and the loop goes on with the remaining steps. */
  lemma RunAdvances(exp: real -> real, r: Rates, st: PState, n: nat, t: real, tEnd: real, steps: seq<Step>, w: real)
    requires n <= |st.E| && n <= |st.I|
    requires TotNS(r, st, n) > 0.0 && steps != [] && !(t + steps[0].dt > tEnd)
    ensures var nx := Advance(exp, r, st, n, t, tEnd, steps[0], w);
            Run(exp, r, st, n, t, tEnd, steps, w) == Run(exp, r, nx.0, n, nx.1, tEnd, steps[1..], nx.2)
  {
  }

  /** Every uniform draw lies in [0, 1). */
  predicate UnitDraws(steps: seq<Step>)
  {
    forall s :: 0 <= s < |steps| ==> 0.0 <= steps[s].u < 1.0
  }

  /**
   * With no propensity the loop ends at once; a run that ends keeps the
   * population and lineages n.., and, with rates that are not negative and
   * draws in [0, 1), keeps every count non-negative.
   */
  lemma {:induction false} RunMeaning(exp: real -> real, r: Rates, st: PState, n: nat, t: real, tEnd: real, steps: seq<Step>, w: real)
    requires n <= |st.E| && n <= |st.I|
    ensures var o := Run(exp, r, st, n, t, tEnd, steps, w);
            && (!(TotNS(r, st, n) > 0.0) ==> o == Some((st, Decay(exp, tEnd, t, TotSamp(r, st, n), w))))
            && (o.Some? ==>
                  && Population(o.value.0) == Population(st)
                  && (forall k :: n <= k < |st.E| ==> o.value.0.E[k] == st.E[k])
                  && (forall k :: n <= k < |st.I| ==> o.value.0.I[k] == st.I[k])
                  && (NonNegRates(r) && NonNegCounts(st) && UnitDraws(steps) ==> NonNegCounts(o.value.0)))
    decreases |steps|
  {
    var aNS := TotNS(r, st, n);
    if aNS > 0.0 && steps != [] && !(t + steps[0].dt > tEnd) {
      var nx := Advance(exp, r, st, n, t, tEnd, steps[0], w);
      var u := Draw(steps[0].u, aNS);
      if 0.0 <= steps[0].u {
        MulNonNeg(steps[0].u, aNS);
        FireMeaning(r, st, n, u);
        if NonNegRates(r) && NonNegCounts(st) {
          FireKeepsNonNeg(r, st, n, u);
        }
      } else {
        FireConserves(r, st, n, u);
      }
      RunMeaning(exp, r, nx.0, n, nx.1, tEnd, steps[1..], nx.2);
      if UnitDraws(steps) {
        assert UnitDraws(steps[1..]) by {
          forall s | 0 <= s < |steps[1..]|
            ensures 0.0 <= steps[1..][s].u < 1.0
          {
            assert steps[1..][s] == steps[s + 1];
          }
        }
      }
    }
  }

  /** Whatever the draw, firing keeps the population and lineages n... */
  lemma FireConserves(r: Rates, st: PState, n: nat, u: real)
    requires n <= |st.E| && n <= |st.I|
    ensures var q := Fire(r, st, n, u);
            && Population(q) == Population(st)
            && (forall k :: n <= k < |st.E| ==> q.E[k] == st.E[k])
            && (forall k :: n <= k < |st.I| ==> q.I[k] == st.I[k])
  {
    var c := Choose(Slots(r, st, n), u);
    if c < 3 * n {
      SlotReaction(r, st, n, c);
      ReactMeaning(st, ReactionAt(c));
    }
  }

  // ---------------------------------------------------------------------
  // The observed tree event

  /** The position of the node with number nr, or the number of nodes when there is none. */
  function IndexOf(nodes: seq<SNode>, nr: nat): (k: nat)
    ensures k <= |nodes|
    ensures k < |nodes| ==> nodes[k].nr == nr
    ensures forall q :: 0 <= q < k ==> nodes[q].nr != nr
  {
    if nodes == [] then 0
    else if nodes[0].nr == nr then 0
    else IndexOf(nodes[1..], nr) + 1
  }

  /** The numbers of the nodes. */
  function Numbers(nodes: seq<SNode>): set<nat>
  {
    set m | m in nodes :: m.nr
  }

  /** Every branching node's two children are among the nodes. */
  predicate Tree(nodes: seq<SNode>)
  {
    forall m :: m in nodes && !m.isLeaf ==> m.left in Numbers(nodes) && m.right in Numbers(nodes)
  }

  /** A number is found exactly when it belongs to a node. */
  lemma IndexOfFound(nodes: seq<SNode>, nr: nat)
    ensures IndexOf(nodes, nr) < |nodes| <==> nr in Numbers(nodes)
  {
    var k := IndexOf(nodes, nr);
    if nr in Numbers(nodes) {
      var m :| m in nodes && m.nr == nr;
      var q :| 0 <= q < |nodes| && nodes[q] == m;
      assert k <= q;
    }
  }

  /** Math.pow with a whole exponent. */
  function Pow(x: real, k: nat): real
  {
    if k == 0 then 1.0 else x * Pow(x, k - 1)
  }

  /** The branching update: one susceptible fewer, and one child's exposed set to 1 and the other child's infected set to 0. */
  function Branch(st: PState, l: nat, rt: nat, coin: bool): (q: PState)
    requires l < |st.E| && l < |st.I| && rt < |st.E| && rt < |st.I|
    ensures |q.E| == |st.E| && |q.I| == |st.I|
  {
    if coin then PState(st.S - 1, st.E[l := 1], st.I[rt := 0])
    else PState(st.S - 1, st.E[rt := 1], st.I[l := 0])
  }

  /** The chance I/(E+I) that the lineage's host is an infected one. */
  function InfectedFraction(e: int, i: int): Double
  {
    Div(i as real, (e + i) as real)
  }

  /** The chance of a sample at the present among the i infected hosts: rho (1 - rho)^(i-1) i. */
  function RhoFactor(pSamp: real, i: int): real
    requires i >= 1
  {
    pSamp * Pow(1.0 - pSamp, i - 1) * (i as real)
  }

  /** The factor of the leaf sampling cases, on the weight q so far. */
  function LeafWeight(r: Rates, height: real, aS: real, i: int, q: Double): Double
    requires i >= 1
  {
    var q1 := if r.samp > 0.0 && (r.pSamp == 0.0 || height > 0.0) then Scale(q, aS) else q;
    if r.pSamp > 0.0 && height == 0.0 then Scale(q1, RhoFactor(r.pSamp, i)) else q1
  }

  /**
   * After the simulation of interval idx: with no infected host on the
   * lineage the weight is 0; otherwise the weight takes the chance I/(E+I)
   * that the event concerns an infected host, then a leaf takes its
   * sampling factors and returns the host to the susceptibles, and a
   * branching node takes the infection rate and applies the branching update.
   */
  function Observe(r: Rates, st: PState, nodes: seq<SNode>, idx: nat, w: real, coin: bool): (o: (PState, Double))
    requires idx < |nodes| && Shaped(st, |nodes|) && Tree(nodes)
    ensures Shaped(o.0, |nodes|)
  {
    var node := nodes[idx];
    var i := st.I[idx];
    if i >= 1 then
      var q := Scale(InfectedFraction(st.E[idx], i), w);
      if node.isLeaf then
        (PState(st.S + 1, st.E, st.I[idx := i - 1]), LeafWeight(r, node.height, TotSamp(r, st, idx + 1), i, q))
      else
        assert node in nodes;
        IndexOfFound(nodes, node.left);
        IndexOfFound(nodes, node.right);
        (Branch(st, IndexOf(nodes, node.left), IndexOf(nodes, node.right), coin), Scale(q, r.infect))
    else (st, Finite(0.0))
  }

  /** With no infected host on the lineage the state is kept and the weight is 0. */
  lemma ObserveNoInfected(r: Rates, st: PState, nodes: seq<SNode>, idx: nat, w: real, coin: bool)
    requires idx < |nodes| && Shaped(st, |nodes|) && Tree(nodes)
    requires st.I[idx] < 1
    ensures Observe(r, st, nodes, idx, w, coin) == (st, Finite(0.0))
  {
  }

  /**
   * A leaf takes one infected host of its lineage back to the
   * susceptibles, so the population is kept.
   */
  lemma ObserveLeaf(r: Rates, st: PState, nodes: seq<SNode>, idx: nat, w: real, coin: bool)
    requires idx < |nodes| && Shaped(st, |nodes|) && Tree(nodes)
    requires st.I[idx] >= 1 && nodes[idx].isLeaf
    ensures var o := Observe(r, st, nodes, idx, w, coin);
            && o.0 == PState(st.S + 1, st.E, st.I[idx := st.I[idx] - 1])
            && Population(o.0) == Population(st)
  {
    CountUpdate(st.I, idx, st.I[idx] - 1, |st.I|);
  }

  /**
   * A branching node finds the positions of its two children in the node
   * list, takes a susceptible and applies the branching update there.
   */
  lemma ObserveBranch(r: Rates, st: PState, nodes: seq<SNode>, idx: nat, w: real, coin: bool)
    requires idx < |nodes| && Shaped(st, |nodes|) && Tree(nodes)
    requires st.I[idx] >= 1 && !nodes[idx].isLeaf
    ensures var l := IndexOf(nodes, nodes[idx].left);
            var rt := IndexOf(nodes, nodes[idx].right);
            && l < |nodes| && rt < |nodes|
            && nodes[l].nr == nodes[idx].left && nodes[rt].nr == nodes[idx].right
            && Observe(r, st, nodes, idx, w, coin).0 == Branch(st, l, rt, coin)
            && Branch(st, l, rt, coin).S == st.S - 1
  {
    assert nodes[idx] in nodes;
    IndexOfFound(nodes, nodes[idx].left);
    IndexOfFound(nodes, nodes[idx].right);
  }

  /** With E >= 0 and I >= 1 the chance I/(E+I) of an infected host is a probability above 0. */
  lemma InfectedFractionRange(e: int, i: int)
    requires e >= 0 && i >= 1
    ensures var f := InfectedFraction(e, i);
            f.Finite? && 0.0 < f.v <= 1.0
  {
    PartOfWhole(i as real, (e + i) as real);
  }

  // ---------------------------------------------------------------------
  // One particle over one interval, and the filter over all intervals

  /** The start of interval i: 0 for the first, else the time of the node before. */
  function IntervalStart(origin: real, nodes: seq<SNode>, i: nat): real
    requires i < |nodes|
  {
    if i > 0 then origin - nodes[i - 1].height else 0.0
  }

  /** updateParticle: the simulation of interval idx up to its node's time, then the observed event. */
  function Update(exp: real -> real, r: Rates, origin: real, st: PState, nodes: seq<SNode>, idx: nat, tStart: real, d: ParticleDraws): (o: Option<(PState, Double)>)
    requires idx < |nodes| && Shaped(st, |nodes|) && Tree(nodes)
    ensures o.Some? ==> Shaped(o.value.0, |nodes|)
  {
    match Run(exp, r, st, idx + 1, tStart, origin - nodes[idx].height, d.steps, 1.0)
    case None => None
    case Some((st1, w)) => Some(Observe(r, st1, nodes, idx, w, d.coin))
  }

  predicate AllShaped(states: seq<PState>, n: nat)
  {
    forall p :: 0 <= p < |states| ==> Shaped(states[p], n)
  }

  /** The draws fit the particles: one set per particle and one uniform draw in [0, 1) per slot. */
  predicate Fits(d: IntervalDraws, nParticles: nat)
  {
    |d.particles| == nParticles && |d.picks| == nParticles && forall p :: 0 <= p < nParticles ==> 0.0 <= d.picks[p] < 1.0
  }

  /** The update of every particle in interval i. */
  function Updates(exp: real -> real, r: Rates, origin: real, states: seq<PState>, nodes: seq<SNode>, i: nat, ds: seq<ParticleDraws>): (us: seq<Option<(PState, Double)>>)
    requires i < |nodes| && |ds| == |states| && AllShaped(states, |nodes|) && Tree(nodes)
    ensures |us| == |states|
    ensures forall p :: 0 <= p < |us| ==> us[p] == Update(exp, r, origin, states[p], nodes, i, IntervalStart(origin, nodes, i), ds[p])
  {
    seq(|states|, p requires 0 <= p < |states| => Update(exp, r, origin, states[p], nodes, i, IntervalStart(origin, nodes, i), ds[p]))
  }

  predicate AllSome(us: seq<Option<(PState, Double)>>)
  {
    forall p :: 0 <= p < |us| ==> us[p].Some?
  }

  /** The states of updates that all succeeded. */
  function UpdatedStates(us: seq<Option<(PState, Double)>>): (sts: seq<PState>)
    requires AllSome(us)
    ensures |sts| == |us| && forall p :: 0 <= p < |us| ==> sts[p] == us[p].value.0
  {
    seq(|us|, p requires 0 <= p < |us| => us[p].value.0)
  }

  /** The weights of updates that all succeeded. */
  function WeightsOf(us: seq<Option<(PState, Double)>>): (ws: seq<Double>)
    requires AllSome(us)
    ensures |ws| == |us| && forall p :: 0 <= p < |us| ==> ws[p] == us[p].value.1
  {
    seq(|us|, p requires 0 <= p < |us| => us[p].value.1)
  }

  /** Slot p of the next generation is particle choices[p] of this one. */
  function Resampled(states: seq<PState>, choices: seq<nat>): (next: seq<PState>)
    requires forall p :: 0 <= p < |choices| ==> choices[p] < |states|
    ensures |next| == |choices| && forall p :: 0 <= p < |choices| ==> next[p] == states[choices[p]]
  {
    seq(|choices|, p requires 0 <= p < |choices| => states[choices[p]])
  }

  /** The sum of the weights, added from the left. */
  function SumOf(ws: seq<Double>): Double
  {
    if ws == [] then Finite(0.0) else Add(SumOf(ws[..|ws| - 1]), ws[|ws| - 1])
  }

  /** The mean weight: the sum over the number of weights. */
  function MeanOf(ws: seq<Double>): (m: Double)
    ensures ws == [] ==> m.NaN?
  {
    var s := SumOf(ws);
    if s.Finite? then Div(s.v, |ws| as real) else s
  }

  predicate AllFinite(ws: seq<Double>)
  {
    forall p :: 0 <= p < |ws| ==> ws[p].Finite?
  }

  /** The weights as reals. */
  function Values(ws: seq<Double>): (vs: seq<real>)
    requires AllFinite(ws)
    ensures |vs| == |ws| && forall p :: 0 <= p < |ws| ==> vs[p] == ws[p].v
  {
    seq(|ws|, p requires 0 <= p < |ws| => ws[p].v)
  }

  /**
   * Randomizer.randomChoicePDF with the uniform draw u in [0, 1): u times
   * the total weight is reduced by the weights in turn and the first
   * weight that exceeds what is left is chosen. The result |ws| stands for
   * the library falling through and throwing an Error, which it does when
   * no weight is chosen and, for NaN or +infinity weights, always. A weight
   * of -infinity, which the filter never produces, is treated the same way.
   */
  function RandomChoicePDF(ws: seq<Double>, u: real): (c: nat)
    ensures c <= |ws|
  {
    if AllFinite(ws) then
      var vs := Values(ws);
      Choose(vs, Draw(u, Total(vs)))
    else |ws|
  }

  /**
   * With finite weights that are never negative and a positive total, the
   * chosen particle is the one whose share of the total holds the scaled
   * draw, and its weight is positive; with a total of 0 the library throws.
   */
  lemma RandomChoiceMeaning(ws: seq<Double>, u: real)
    requires AllFinite(ws) && 0.0 <= u < 1.0 && forall p :: 0 <= p < |ws| ==> ws[p].v >= 0.0
    ensures var c := RandomChoicePDF(ws, u);
            var vs := Values(ws);
            && (Total(vs) > 0.0 ==> c < |ws| && Prefix(vs, c) <= Draw(u, Total(vs)) < Prefix(vs, c + 1) && ws[c].v > 0.0)
            && (Total(vs) == 0.0 ==> c == |ws|)
  {
    var vs := Values(ws);
    var c := Choose(vs, u * Total(vs));
    assert Draw(u, Total(vs)) == u * Total(vs);
    assert RandomChoicePDF(ws, u) == c;
    assert forall k :: 0 <= k < |vs| ==> vs[k] >= 0.0;
    ChooseShare(vs, u);
    if c < |ws| {
      assert ws[c].v == vs[c];
    }
  }

  /** The particle chosen for each resampled slot, slot by slot. */
  function Choices(ws: seq<Double>, picks: seq<real>): (cs: seq<nat>)
    ensures |cs| == |picks|
  {
    if picks == [] then [] else Choices(ws, picks[..|picks| - 1]) + [RandomChoicePDF(ws, picks[|picks| - 1])]
  }

  /** Slot p holds the particle that randomChoicePDF picks with the slot's own draw. */
  lemma {:induction false} ChoicesAt(ws: seq<Double>, picks: seq<real>, p: nat)
    requires p < |picks|
    ensures Choices(ws, picks)[p] == RandomChoicePDF(ws, picks[p])
  {
    if p < |picks| - 1 {
      ChoicesAt(ws, picks[..|picks| - 1], p);
    }
  }

  /** Every slot names one of the n particles. */
  predicate Chosen(cs: seq<nat>, n: nat)
  {
    forall p :: 0 <= p < |cs| ==> cs[p] < n
  }

  /** With every weight 0 the first resampled slot already makes the library throw. */
  lemma ZeroWeightsThrow(ws: seq<Double>, picks: seq<real>)
    requires picks != [] && 0.0 <= picks[0] < 1.0 && forall p :: 0 <= p < |ws| ==> ws[p] == Finite(0.0)
    ensures !Chosen(Choices(ws, picks), |ws|)
  {
    var vs := Values(ws);
    TotalOfZeros(vs, |vs|);
    RandomChoiceMeaning(ws, picks[0]);
    ChoicesAt(ws, picks, 0);
  }

  lemma {:induction false} TotalOfZeros(vs: seq<real>, p: nat)
    requires p <= |vs| && forall k :: 0 <= k < |vs| ==> vs[k] == 0.0
    ensures Prefix(vs, p) == 0.0
  {
    if p > 0 {
      TotalOfZeros(vs, p - 1);
    }
  }

  /**
   * One interval of the filter: every particle is updated, the log of the
   * mean weight is added to the log density, and slot p of the next
   * generation holds the updated state of the particle that
   * randomChoicePDF picks from the weights with the slot's draw. It fails
   * when some draws run out or the library throws.
   */
  function Interval(exp: real -> real, ln: real -> real, r: Rates, origin: real, states: seq<PState>, nodes: seq<SNode>, i: nat, d: IntervalDraws, logP: Double): (o: Option<(seq<PState>, Double)>)
    requires i < |nodes| && AllShaped(states, |nodes|) && Tree(nodes) && Fits(d, |states|)
    ensures o.Some? ==> |o.value.0| == |states| && AllShaped(o.value.0, |nodes|)
  {
    var us := Updates(exp, r, origin, states, nodes, i, d.particles);
    if !AllSome(us) then None
    else
      var ws := WeightsOf(us);
      var cs := Choices(ws, d.picks);
      if !Chosen(cs, |states|) then None
      else Some((Resampled(UpdatedStates(us), cs), Add(logP, LogOf(ln, MeanOf(ws)))))
  }

  predicate AllFit(draws: seq<IntervalDraws>, nParticles: nat)
  {
    forall i :: 0 <= i < |draws| ==> Fits(draws[i], nParticles)
  }

  /** The filter over intervals i..: the final generation and log density, or None when some draws run out. */
  function Filter(exp: real -> real, ln: real -> real, r: Rates, origin: real, states: seq<PState>, nodes: seq<SNode>, i: nat, draws: seq<IntervalDraws>, logP: Double): (o: Option<(seq<PState>, Double)>)
    requires i <= |nodes| == |draws| && AllShaped(states, |nodes|) && Tree(nodes) && AllFit(draws, |states|)
    ensures o.Some? ==> |o.value.0| == |states|
    decreases |nodes| - i, 1
  {
    if i == |nodes| then Some((states, logP))
    else FilterOn(exp, ln, r, origin, states, nodes, i, draws, logP)
  }

  /** Interval i followed by the rest of the filter. */
  function FilterOn(exp: real -> real, ln: real -> real, r: Rates, origin: real, states: seq<PState>, nodes: seq<SNode>, i: nat, draws: seq<IntervalDraws>, logP: Double): (o: Option<(seq<PState>, Double)>)
    requires i < |nodes| == |draws| && AllShaped(states, |nodes|) && Tree(nodes) && AllFit(draws, |states|)
    ensures o.Some? ==> |o.value.0| == |states|
    decreases |nodes| - i, 0
  {
    match Interval(exp, ln, r, origin, states, nodes, i, draws[i], logP)
    case None => None
    case Some((next, lp)) => Filter(exp, ln, r, origin, next, nodes, i + 1, draws, lp)
  }

  /** An interval that succeeds hands its states and log density on to the rest of the filter. */
  lemma FilterStep(exp: real -> real, ln: real -> real, r: Rates, origin: real, states: seq<PState>, nodes: seq<SNode>, i: nat, draws: seq<IntervalDraws>, logP: Double,
                   next: seq<PState>, lp: Double)
    requires i < |nodes| == |draws| && AllShaped(states, |nodes|) && Tree(nodes) && AllFit(draws, |states|)
    requires Interval(exp, ln, r, origin, states, nodes, i, draws[i], logP) == Some((next, lp))
    ensures AllShaped(next, |nodes|) && |next| == |states|
    ensures Filter(exp, ln, r, origin, states, nodes, i, draws, logP) == Filter(exp, ln, r, origin, next, nodes, i + 1, draws, lp)
  {
  }

  /** An interval that fails makes the filter fail. */
  lemma FilterStop(exp: real -> real, ln: real -> real, r: Rates, origin: real, states: seq<PState>, nodes: seq<SNode>, i: nat, draws: seq<IntervalDraws>, logP: Double)
    requires i < |nodes| == |draws| && AllShaped(states, |nodes|) && Tree(nodes) && AllFit(draws, |states|)
    requires Interval(exp, ln, r, origin, states, nodes, i, draws[i], logP) == None
    ensures Filter(exp, ln, r, origin, states, nodes, i, draws, logP) == None
  {
  }

  /** The start of calculateLogP: S = S0, E[0] = 1 and I[0] = 0 in every particle. */
  function Reset(states: seq<PState>, S0: int): (rs: seq<PState>)
    requires forall p :: 0 <= p < |states| ==> |states[p].E| >= 1 && |states[p].I| >= 1
    ensures |rs| == |states|
  {
    seq(|states|, p requires 0 <= p < |states| => PState(S0, states[p].E[0 := 1], states[p].I[0 := 0]))
  }

  /** The reset touches S and lineage 0 and nothing else: the other lineages keep their counts from before. */
  lemma ResetMeaning(states: seq<PState>, S0: int)
    requires forall p :: 0 <= p < |states| ==> |states[p].E| >= 1 && |states[p].I| >= 1
    ensures var rs := Reset(states, S0);
            forall p :: 0 <= p < |states| ==>
              && rs[p].S == S0 && rs[p].E[0] == 1 && rs[p].I[0] == 0
              && |rs[p].E| == |states[p].E| && |rs[p].I| == |states[p].I|
              && (forall k :: 1 <= k < |states[p].E| ==> rs[p].E[k] == states[p].E[k])
              && (forall k :: 1 <= k < |states[p].I| ==> rs[p].I[k] == states[p].I[k])
  {
  }

  /** The sort key that puts higher nodes first. */
  function Depth(m: SNode): real
  {
    -m.height
  }

  /** The nodes sorted by non-increasing height, stably: the order of the node list in calculateLogP. */
  function TreeNodes(nodes: seq<SNode>): seq<SNode>
  {
    SortBy(nodes, Depth)
  }

  /** The sorted list holds the same nodes, highest first, and is still a tree. */
  lemma TreeNodesMeaning(nodes: seq<SNode>)
    ensures var ts := TreeNodes(nodes);
            && |ts| == |nodes| && multiset(ts) == multiset(nodes)
            && (forall i, j :: 0 <= i < j < |ts| ==> ts[i].height >= ts[j].height)
            && (Tree(nodes) ==> Tree(ts))
  {
    var ts := TreeNodes(nodes);
    forall i, j | 0 <= i < j < |ts|
      ensures ts[i].height >= ts[j].height
    {
      assert Depth(ts[i]) <= Depth(ts[j]);
    }
    forall m
      ensures m in ts <==> m in nodes
    {
      assert m in ts <==> m in multiset(ts);
      assert m in nodes <==> m in multiset(nodes);
    }
    assert Numbers(ts) == Numbers(nodes);
  }

  /** The sorted list is as long as the node list and still a tree. */
  lemma TreeNodesTree(nodes: seq<SNode>)
    ensures |TreeNodes(nodes)| == |nodes| && (Tree(nodes) ==> Tree(TreeNodes(nodes)))
  {
    TreeNodesMeaning(nodes);
  }

  /** The number of leaves at height 0 or below: the contemporaneously sampled leaves. */
  function Contemporaneous(nodes: seq<SNode>): (c: nat)
    ensures c <= |nodes|
  {
    if nodes == [] then 0
    else Contemporaneous(nodes[..|nodes| - 1]) + (if nodes[|nodes| - 1].isLeaf && !(nodes[|nodes| - 1].height > 0.0) then 1 else 0)
  }

  /** There are none exactly when every leaf is above height 0, and all nodes count exactly when every node is such a leaf. */
  lemma {:induction false} ContemporaneousMeaning(nodes: seq<SNode>)
    ensures Contemporaneous(nodes) == 0 <==> forall k :: 0 <= k < |nodes| && nodes[k].isLeaf ==> nodes[k].height > 0.0
    ensures Contemporaneous(nodes) == |nodes| <==> forall k :: 0 <= k < |nodes| ==> nodes[k].isLeaf && !(nodes[k].height > 0.0)
  {
    if nodes != [] {
      var front := nodes[..|nodes| - 1];
      ContemporaneousMeaning(front);
      assert forall k :: 0 <= k < |front| ==> front[k] == nodes[k];
    }
  }

  /**
   * calculateLogP: the filter over the sorted nodes from the reset
   * particles, plus log(nContemp!) for the arbitrary order of the leaves
   * sampled at the present. nContemp is the count that initAndValidate
   * stored, which need not be the count of the current tree.
   */
  function LogP(exp: real -> real, ln: real -> real, lnGamma: real -> real, r: Rates, origin: real, S0: int,
                states: seq<PState>, nodes: seq<SNode>, nContemp: nat, draws: seq<IntervalDraws>): (o: Option<(seq<PState>, Double)>)
    requires 1 <= |nodes| == |draws| && AllShaped(states, |nodes|) && Tree(nodes) && AllFit(draws, |states|)
  {
    TreeNodesTree(nodes);
    var rs := Reset(states, S0);
    match Filter(exp, ln, r, origin, rs, TreeNodes(nodes), 0, draws, Finite(0.0))
    case None => None
    case Some((fin, lp)) => Some((fin, Add(lp, Finite(lnGamma((nContemp + 1) as real)))))
  }

  /** A filter over all intervals that ends in (fin, lp) gives the density lp plus the term for the order of the present-day leaves. */
  lemma LogPFinished(exp: real -> real, ln: real -> real, lnGamma: real -> real, r: Rates, origin: real, S0: int,
                     states: seq<PState>, nodes: seq<SNode>, draws: seq<IntervalDraws>, fin: seq<PState>, lp: Double, c: nat)
    requires 1 <= |nodes| == |draws| && AllShaped(states, |nodes|) && Tree(nodes) && AllFit(draws, |states|)
    requires |TreeNodes(nodes)| == |nodes| && Tree(TreeNodes(nodes)) && AllShaped(Reset(states, S0), |nodes|)
    requires Filter(exp, ln, r, origin, Reset(states, S0), TreeNodes(nodes), 0, draws, Finite(0.0)) == Some((fin, lp))
    ensures LogP(exp, ln, lnGamma, r, origin, S0, states, nodes, c, draws) == Some((fin, Add(lp, Finite(lnGamma((c + 1) as real)))))
  {
  }

  /** A filter that fails makes the whole density fail. */
  lemma LogPFailed(exp: real -> real, ln: real -> real, lnGamma: real -> real, r: Rates, origin: real, S0: int,
                   states: seq<PState>, nodes: seq<SNode>, c: nat, draws: seq<IntervalDraws>)
    requires 1 <= |nodes| == |draws| && AllShaped(states, |nodes|) && Tree(nodes) && AllFit(draws, |states|)
    requires |TreeNodes(nodes)| == |nodes| && Tree(TreeNodes(nodes)) && AllShaped(Reset(states, S0), |nodes|)
    requires Filter(exp, ln, r, origin, Reset(states, S0), TreeNodes(nodes), 0, draws, Finite(0.0)) == None
    ensures LogP(exp, ln, lnGamma, r, origin, S0, states, nodes, c, draws) == None
  {
  }

  /** With at least one particle and every weight 0, an interval's mean is 0 and it adds negative infinity. */
  lemma {:induction false} ZeroWeightsReject(ln: real -> real, ws: seq<Double>, logP: Double)
    requires ws != [] && forall p :: 0 <= p < |ws| ==> ws[p] == Finite(0.0)
    requires logP.Finite? || logP.NegInf?
    ensures MeanOf(ws) == Finite(0.0)
    ensures Add(logP, LogOf(ln, MeanOf(ws))) == NegInf
  {
    SumOfZeros(ws);
    assert |ws| as real != 0.0;
    assert MeanOf(ws) == Div(0.0, |ws| as real) == Finite(0.0);
    assert LogOf(ln, Finite(0.0)) == NegInf;
  }

  lemma {:induction false} SumOfZeros(ws: seq<Double>)
    requires forall p :: 0 <= p < |ws| ==> ws[p] == Finite(0.0)
    ensures SumOf(ws) == Finite(0.0)
  {
    if ws != [] {
      SumOfZeros(ws[..|ws| - 1]);
    }
  }
}
