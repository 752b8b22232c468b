/**
 * The SEIS tree density as the object the program uses: particles whose
 * counts are arrays updated in place, propensity arrays shared by all
 * particles, a weight per particle, and a second particle array that the
 * resampling fills with copies before the two arrays are swapped. Every
 * method is proved against the value model of the particle filter.
 */
module SEISTreeDensity {
  import opened Wrappers
  import opened Doubles
  import opened Selection
  import opened SEISParticles

  /**
   * One particle: the susceptibles, and the exposed and infected hosts of
   * every lineage. The two count arrays of the program, which no two
   * particles share, are sequence fields here.
   */
  class Particle {
    var S: int
    var E: seq<int>
    var I: seq<int>

    /** A particle with no hosts, with room for n lineages. */
    constructor(n: nat)
      ensures S == 0 && E == seq(n, _ => 0) && I == seq(n, _ => 0)
    {
      S := 0;
      E := seq(n, _ => 0);
      I := seq(n, _ => 0);
    }

    /** The particle as a value. */
    ghost function State(): PState
      reads this
    {
      PState(S, E, I)
    }

    /** One reaction applied to the particle in place. */
    method Apply(rx: Reaction)
      requires rx.j < |E| && rx.j < |I|
      modifies this
      ensures State() == React(old(State()), rx)
    {
      match rx
      case Infection(j) =>
        S := S - 1;
        E := E[j := E[j] + 1];
      case Activation(j) =>
        E := E[j := E[j] - 1];
        I := I[j := I[j] + 1];
      case Recovery(j) =>
        I := I[j := I[j] - 1];
        S := S + 1;
    }

    /** The reset at the start of calculateLogP: S0 susceptibles, one exposed and no infected in lineage 0. */
    method ResetCounts(S0: int)
      requires |E| >= 1 && |I| >= 1
      modifies this
      ensures State() == PState(S0, old(E)[0 := 1], old(I)[0 := 0])
    {
      S := S0;
      E := E[0 := 1];
      I := I[0 := 0];
    }

    /** getCopy: a new particle holding the same counts. */
    method GetCopy() returns (c: Particle)
      ensures fresh(c) && c.State() == State()
    {
      c := new Particle(|E|);
      c.S := S;
      c.E := E;
      c.I := I;
    }
  }

  /** Every particle has n lineages, and no two particles are the same object: owner tells them apart. */
  ghost predicate Owned(ps: array<Particle>, n: nat, owner: map<object, int>)
    reads ps, set k | 0 <= k < ps.Length :: ps[k]
  {
    forall k :: 0 <= k < ps.Length ==> |ps[k].E| == n && |ps[k].I| == n && ps[k] in owner && owner[ps[k]] == k
  }

  /** The particles hold the given states, in order. */
  ghost predicate Holds(ps: array<Particle>, states: seq<PState>)
    reads ps, set k | 0 <= k < ps.Length :: ps[k]
  {
    |states| == ps.Length && forall k :: 0 <= k < ps.Length ==> ps[k].State() == states[k]
  }

  /** The count of leaves at height 0 in initAndValidate. */
  method CountContemporaneous(nodes: seq<SNode>) returns (c: nat)
    ensures c == Contemporaneous(nodes)
  {
    c := 0;
    var k := 0;
    while k < |nodes|
      invariant 0 <= k <= |nodes| && c == Contemporaneous(nodes[..k])
    {
      assert nodes[..k + 1][..k] == nodes[..k];
      if nodes[k].isLeaf && !(nodes[k].height > 0.0) {
        c := c + 1;
      }
      k := k + 1;
    }
    assert nodes[..|nodes|] == nodes;
  }

  /** The particle array of initAndValidate: n new particles with no hosts and room for m lineages each. */
  method NewParticles(m: nat, n: nat) returns (ps: array<Particle>, ghost owner: map<object, int>)
    ensures fresh(ps) && ps.Length == n && Owned(ps, m, owner) && Holds(ps, seq(n, _ => Blank(m)))
  {
    var made: seq<Particle> := [];
    owner := map[];
    while |made| < n
      invariant |made| <= n
      invariant forall k :: 0 <= k < |made| ==> made[k].State() == Blank(m) && made[k] in owner && owner[made[k]] == k
    {
      var q := new Particle(m);
      owner := owner[q := |made|];
      made := made + [q];
    }
    ps := new Particle[n](k requires 0 <= k < n => made[k]);
  }

  class SEISTreeDensity {
    const nodeCount: nat
    const nParticles: nat
    const nContemp: nat

    const aInfect: array<real>
    const aActivate: array<real>
    const aRecover: array<real>
    var aTotNS: real
    var aTotSamp: real

    var particles: array<Particle>
    var particlesPrime: array<Particle>
    ghost var owner: map<object, int>
    const weights: array<Double>
    var logP: Double

    /** The three propensity arrays are different arrays, with one entry per node. */
    ghost predicate PropArrays()
    {
      && aInfect.Length == nodeCount && aActivate.Length == nodeCount && aRecover.Length == nodeCount
      && aInfect != aActivate && aInfect != aRecover && aActivate != aRecover
    }

    /** The arrays have the sizes the tree and the particle count give them, and the particles are separate. */
    ghost predicate Valid()
      reads this`particles, this`particlesPrime, this`owner, particles, set k | 0 <= k < particles.Length :: particles[k]
    {
      && PropArrays()
      && particles.Length == nParticles && particlesPrime.Length == nParticles && weights.Length == nParticles
      && particles != particlesPrime
      && Owned(particles, nodeCount, owner)
    }

    /**
     * initAndValidate: the number of leaves sampled at the present counted
     * over the tree's nodes, propensity arrays with one entry per node, and
     * nParticles new particles with no hosts.
     */
    constructor(nodes: seq<SNode>, n: nat)
      ensures Valid() && nodeCount == |nodes| && nParticles == n && nContemp == Contemporaneous(nodes)
      ensures Holds(particles, seq(n, _ => Blank(|nodes|)))
    {
      nodeCount := |nodes|;
      nParticles := n;
      var c := CountContemporaneous(nodes);
      nContemp := c;
      aInfect := new real[|nodes|];
      aActivate := new real[|nodes|];
      aRecover := new real[|nodes|];
      weights := new Double[n](_ => Finite(0.0));
      var ps;
      ghost var own;
      ps, own := NewParticles(|nodes|, n);
      particles := ps;
      var held := ps[..];
      particlesPrime := new Particle[n](k requires 0 <= k < n => held[k]);
      owner := own;
      logP := Finite(0.0);
    }

    /** The propensity arrays hold the propensities of lineages 0..n-1 of the state. */
    ghost predicate Props(r: Rates, st: PState, n: nat)
      reads this, aInfect, aActivate, aRecover
      requires n <= |st.E| && n <= |st.I|
    {
      && n <= aInfect.Length && n <= aActivate.Length && n <= aRecover.Length
      && forall j :: 0 <= j < n ==>
           && aInfect[j] == InfectProp(r, st, j)
           && aActivate[j] == ActivateProp(r, st, j)
           && aRecover[j] == RecoverProp(r, st, j)
    }

    /**
     * The propensity loop of updateParticle over lineages 0..n-1: the three
     * propensities of every lineage, their total, and the total sampling
     * propensity, all of the particle's current state.
     */
    method UpdatePropensities(r: Rates, p: Particle, n: nat)
      requires n <= nodeCount && n <= |p.E| && n <= |p.I|
      requires PropArrays()
      modifies this`aTotNS, this`aTotSamp, aInfect, aActivate, aRecover
      ensures Props(r, p.State(), n)
      ensures aTotNS == TotNS(r, p.State(), n) && aTotSamp == TotSamp(r, p.State(), n)
    {
      ghost var st := p.State();
      var totNS := 0.0;
      var totSamp := 0.0;
      var j := 0;
      while j < n
        invariant 0 <= j <= n
        invariant p.State() == st
        invariant forall k :: 0 <= k < j ==>
                    && aInfect[k] == InfectProp(r, st, k)
                    && aActivate[k] == ActivateProp(r, st, k)
                    && aRecover[k] == RecoverProp(r, st, k)
        invariant totNS == TotNS(r, st, j) && totSamp == TotSamp(r, st, j)
      {
        assert p.S == st.S && p.E[j] == st.E[j] && p.I[j] == st.I[j];
        aInfect[j] := r.infect * (p.S as real) * (p.I[j] as real);
        assert aInfect[j] == InfectProp(r, st, j);
        totNS := totNS + aInfect[j];
        aActivate[j] := r.activate * (p.E[j] as real);
        assert aActivate[j] == ActivateProp(r, st, j);
        totNS := totNS + aActivate[j];
        aRecover[j] := r.recover * (p.I[j] as real);
        assert aRecover[j] == RecoverProp(r, st, j);
        totNS := totNS + aRecover[j];
        totSamp := totSamp + r.samp * (p.I[j] as real);
        TotNSStep(r, st, j);
        j := j + 1;
      }
      aTotNS := totNS;
      aTotSamp := totSamp;
    }

    /**
     * The reaction loop of updateParticle: the draw u is reduced by the
     * propensities in turn, and the first reaction whose propensity exceeds
     * what is left of u fires; when none does the particle is unchanged.
     */
    method FireReaction(r: Rates, p: Particle, n: nat, u0: real)
      requires n <= |p.E| && n <= |p.I|
      requires Props(r, p.State(), n)
      modifies p
      ensures |p.E| == |old(p.E)| && |p.I| == |old(p.I)|
      ensures p.State() == Fire(r, old(p.State()), n, u0)
    {
      ghost var st := p.State();
      ghost var w := Slots(r, st, n);
      var u := u0;
      var j := 0;
      while j < n
        invariant 0 <= j <= n
        invariant p.State() == st
        invariant ChooseFrom(w, u, 3 * j) == Choose(w, u0)
      {
        SlotsAt(r, st, n, j);
        ReactionAtSlot(j);
        var infect, activate, recover := aInfect[j], aActivate[j], aRecover[j];
        assert infect == w[3 * j] && activate == w[3 * j + 1] && recover == w[3 * j + 2];
        if u < infect {
          FireChosen(r, st, n, u0, 3 * j);
          p.Apply(Infection(j));
          return;
        }
        ChooseFromSkip(w, u, 3 * j);
        u := u - infect;
        if u < activate {
          FireChosen(r, st, n, u0, 3 * j + 1);
          p.Apply(Activation(j));
          return;
        }
        ChooseFromSkip(w, u, 3 * j + 1);
        u := u - activate;
        if u < recover {
          FireChosen(r, st, n, u0, 3 * j + 2);
          p.Apply(Recovery(j));
          return;
        }
        ChooseFromSkip(w, u, 3 * j + 2);
        u := u - recover;
        assert 3 * j + 2 + 1 == 3 * (j + 1);
        j := j + 1;
      }
    }

    /**
     * The simulation loop of updateParticle over lineages 0..n-1 from time
     * t0 to tEnd, with the waiting times and uniform draws of steps: the
     * particle ends in the state the value model of the loop gives, with
     * the same weight, and the total sampling propensity of that state is
     * left in aTotSamp; it fails exactly when the steps run out first.
     */
    method Simulate(exp: real -> real, r: Rates, p: Particle, n: nat, t0: real, tEnd: real, steps: seq<Step>) returns (ok: bool, w: real)
      requires PropArrays() && n <= nodeCount && n <= |p.E| && n <= |p.I|
      modifies this`aTotNS, this`aTotSamp, aInfect, aActivate, aRecover, p
      ensures |p.E| == |old(p.E)| && |p.I| == |old(p.I)|
      ensures var o := Run(exp, r, old(p.State()), n, t0, tEnd, steps, 1.0);
              && (ok <==> o.Some?)
              && (ok ==> o.value == (p.State(), w) && aTotSamp == TotSamp(r, p.State(), n))
    {
      ghost var st0 := p.State();
      var t := t0;
      w := 1.0;
      var s := 0;
      while true
        invariant s <= |steps|
        invariant PropArrays() && |p.E| == |old(p.E)| && |p.I| == |old(p.I)|
        invariant Run(exp, r, p.State(), n, t, tEnd, steps[s..], w) == Run(exp, r, st0, n, t0, tEnd, steps, 1.0)
        decreases |steps| - s
      {
        ghost var st := p.State();
        UpdatePropensities(r, p, n);
        assert p.State() == st;
        var infinite := !(aTotNS > 0.0);
        if !infinite && s == |steps| {
          RunOut(exp, r, st, n, t, tEnd, w);
          return false, w;
        }
        if infinite || t + steps[s].dt > tEnd {
          RunStops(exp, r, st, n, t, tEnd, steps[s..], w);
          w := Decay(exp, tEnd, t, aTotSamp, w);
          break;
        }
        RunAdvances(exp, r, st, n, t, tEnd, steps[s..], w);
        assert steps[s..][0] == steps[s] && steps[s..][1..] == steps[s + 1..];
        t, w := AdvanceStep(exp, r, p, n, t, tEnd, steps[s], w);
        s := s + 1;
      }
      ok := true;
    }

    /**
     * One step of the simulation loop that does not end it, with the
     * propensities of the particle's state in place: the time moves on by
     * the waiting time, the weight takes the factor at the new time, and
     * the reaction picked by the scaled uniform draw fires.
     */
    method AdvanceStep(exp: real -> real, r: Rates, p: Particle, n: nat, t: real, tEnd: real, step: Step, w: real) returns (t1: real, w1: real)
      requires n <= |p.E| && n <= |p.I|
      requires Props(r, p.State(), n) && aTotNS == TotNS(r, p.State(), n) && aTotSamp == TotSamp(r, p.State(), n)
      modifies p
      ensures |p.E| == |old(p.E)| && |p.I| == |old(p.I)|
      ensures (p.State(), t1, w1) == Advance(exp, r, old(p.State()), n, t, tEnd, step, w)
    {
      t1 := t + step.dt;
      w1 := Decay(exp, tEnd, t1, aTotSamp, w);
      var u := Draw(step.u, aTotNS);
      FireReaction(r, p, n, u);
    }

    /**
     * The observed event at the end of interval idx, on the weight w of
     * the simulation, with the total sampling propensity of the particle's
     * state in aTotSamp: the particle and the weight become what the value
     * model of the event gives.
     */
    method ObserveEvent(r: Rates, p: Particle, nodes: seq<SNode>, idx: nat, w: real, coin: bool) returns (weight: Double)
      requires idx < |nodes| && Tree(nodes) && |p.E| == |nodes| && |p.I| == |nodes|
      requires aTotSamp == TotSamp(r, p.State(), idx + 1)
      modifies p
      ensures |p.E| == |old(p.E)| && |p.I| == |old(p.I)|
      ensures (p.State(), weight) == Observe(r, old(p.State()), nodes, idx, w, coin)
    {
      ghost var st := p.State();
      var i := p.I[idx];
      if i >= 1 {
        weight := Scale(InfectedFraction(p.E[idx], i), w);
      } else {
        return Finite(0.0);
      }
      var node := nodes[idx];
      if node.isLeaf {
        if r.samp > 0.0 && (r.pSamp == 0.0 || node.height > 0.0) {
          weight := Scale(weight, aTotSamp);
        }
        if r.pSamp > 0.0 && node.height == 0.0 {
          weight := Scale(weight, RhoFactor(r.pSamp, i));
        }
        p.I := p.I[idx := p.I[idx] - 1];
        p.S := p.S + 1;
      } else {
        assert node in nodes;
        IndexOfFound(nodes, node.left);
        IndexOfFound(nodes, node.right);
        var leftIdx := IndexOf(nodes, node.left);
        var rightIdx := IndexOf(nodes, node.right);
        weight := Scale(weight, r.infect);
        p.S := p.S - 1;
        if coin {
          p.E := p.E[leftIdx := 1];
          p.I := p.I[rightIdx := 0];
        } else {
          p.E := p.E[rightIdx := 1];
          p.I := p.I[leftIdx := 0];
        }
      }
    }

    /**
     * updateParticle: the simulation of interval idx from tStart to the
     * time of its node, then the observed event; it fails exactly when the
     * particle's steps run out, and otherwise the particle and its weight
     * are what the value model of the update gives.
     */
    method UpdateParticle(exp: real -> real, r: Rates, origin: real, p: Particle, nodes: seq<SNode>, idx: nat, tStart: real, d: ParticleDraws)
      returns (ok: bool, weight: Double)
      requires PropArrays() && |nodes| == nodeCount && idx < |nodes| && Tree(nodes)
      requires |p.E| == |nodes| && |p.I| == |nodes|
      modifies this`aTotNS, this`aTotSamp, aInfect, aActivate, aRecover, p
      ensures |p.E| == |old(p.E)| && |p.I| == |old(p.I)|
      ensures var o := Update(exp, r, origin, old(p.State()), nodes, idx, tStart, d);
              && (ok <==> o.Some?)
              && (ok ==> o.value == (p.State(), weight))
    {
      var tEnd := origin - nodes[idx].height;
      var w;
      ok, w := Simulate(exp, r, p, idx + 1, tStart, tEnd, d.steps);
      if !ok {
        return false, NaN;
      }
      weight := ObserveEvent(r, p, nodes, idx, w, d.coin);
    }

    /** The update of particle p alone, its weight stored in slot p; no other particle or weight changes. */
    method UpdateOne(exp: real -> real, r: Rates, origin: real, nodes: seq<SNode>, i: nat, tStart: real, d: ParticleDraws, p: nat)
      returns (ok: bool)
      requires Valid() && |nodes| == nodeCount && i < |nodes| && Tree(nodes) && p < particles.Length
      modifies this`aTotNS, this`aTotSamp, aInfect, aActivate, aRecover, weights, particles[p]
      ensures Valid()
      ensures var o := Update(exp, r, origin, old(particles[p].State()), nodes, i, tStart, d);
              && (ok <==> o.Some?)
              && (ok ==> o.value == (particles[p].State(), weights[p]))
      ensures forall k :: 0 <= k < particles.Length && k != p ==> particles[k].State() == old(particles[k].State()) && weights[k] == old(weights[k])
    {
      var q := particles[p];
      assert forall k :: 0 <= k < particles.Length && k != p ==> particles[k] != q;
      var weight;
      ok, weight := UpdateParticle(exp, r, origin, q, nodes, i, tStart, d);
      if ok {
        weights[p] := weight;
      }
    }

    /**
     * The particle loop of calculateLogP for interval i: every particle is
     * updated in turn and its weight stored; it fails exactly when some
     * particle's steps run out, and otherwise the particles and weights are
     * the updated states and weights of the value model.
     */
    method UpdateAll(exp: real -> real, r: Rates, origin: real, nodes: seq<SNode>, i: nat, tStart: real, ds: seq<ParticleDraws>, ghost states: seq<PState>)
      returns (ok: bool)
      requires Valid() && |nodes| == nodeCount && i < |nodes| && Tree(nodes) && |ds| == nParticles
      requires Holds(particles, states) && AllShaped(states, |nodes|) && tStart == IntervalStart(origin, nodes, i)
      modifies this`aTotNS, this`aTotSamp, aInfect, aActivate, aRecover, weights, Current()
      ensures Valid()
      ensures var us := Updates(exp, r, origin, states, nodes, i, ds);
              && (ok <==> AllSome(us))
              && (ok ==> Holds(particles, UpdatedStates(us)) && weights[..] == WeightsOf(us))
    {
      ghost var us := Updates(exp, r, origin, states, nodes, i, ds);
      var p := 0;
      while p < particles.Length
        invariant 0 <= p <= particles.Length
        invariant Valid() && owner == old(owner)
        invariant forall k :: 0 <= k < p ==> us[k].Some? && particles[k].State() == us[k].value.0 && weights[k] == us[k].value.1
        invariant forall k :: p <= k < particles.Length ==> particles[k].State() == states[k]
      {
        var okp := UpdateOne(exp, r, origin, nodes, i, tStart, ds[p], p);
        if !okp {
          assert !us[p].Some?;
          return false;
        }
        p := p + 1;
      }
      ok := true;
    }

    /** The particles of the current generation. */
    ghost function Current(): set<object>
      reads this, particles
    {
      set k | 0 <= k < particles.Length :: particles[k]
    }

    /** The start of calculateLogP: every particle gets S0 susceptibles, one exposed host on lineage 0 and no infected one there. */
    method ResetAll(S0: int, ghost states: seq<PState>)
      requires Valid() && nodeCount >= 1 && Holds(particles, states)
      modifies Current()
      ensures Valid() && Holds(particles, Reset(states, S0))
    {
      ghost var rs := Reset(states, S0);
      var p := 0;
      while p < particles.Length
        invariant 0 <= p <= particles.Length
        invariant Valid()
        invariant forall k :: 0 <= k < p ==> particles[k].State() == rs[k]
        invariant forall k :: p <= k < particles.Length ==> particles[k].State() == states[k]
      {
        var q := particles[p];
        assert forall k :: 0 <= k < particles.Length && k != p ==> particles[k] != q;
        q.ResetCounts(S0);
        p := p + 1;
      }
    }

    /**
     * The resampling loop and the swap: slot p of the next generation is a
     * fresh copy of the particle that randomChoicePDF picks from the
     * weights with the slot's uniform draw, and the two particle arrays
     * trade places. When the library throws, the arrays are not swapped.
     */
    method Resample(picks: seq<real>, ghost states: seq<PState>) returns (ok: bool)
      requires Valid() && Holds(particles, states) && |picks| == nParticles
      modifies this`particles, this`particlesPrime, this`owner, particlesPrime
      ensures Valid()
      ensures var cs := Choices(weights[..], picks);
              && (ok <==> Chosen(cs, nParticles))
              && (ok ==> && Holds(particles, Resampled(states, cs))
                         && particles == old(particlesPrime) && particlesPrime == old(particles)
                         && forall k :: 0 <= k < particles.Length ==> fresh(particles[k]))
              && (!ok ==> particles == old(particles) && particlesPrime == old(particlesPrime))
    {
      ghost var cs := Choices(weights[..], picks);
      ghost var next: map<object, int> := map[];
      var p := 0;
      while p < particlesPrime.Length
        invariant 0 <= p <= particlesPrime.Length
        invariant particles == old(particles) && particlesPrime == old(particlesPrime) && owner == old(owner)
        invariant Valid() && Holds(particles, states)
        invariant forall k :: 0 <= k < p ==>
                    && cs[k] < nParticles
                    && fresh(particlesPrime[k]) && particlesPrime[k] in next && next[particlesPrime[k]] == k
                    && particlesPrime[k].State() == states[cs[k]]
      {
        var choice := RandomChoicePDF(weights[..], picks[p]);
        ChoicesAt(weights[..], picks, p);
        if choice == particles.Length {
          return false;
        }
        var c := particles[choice].GetCopy();
        particlesPrime[p] := c;
        next := next[c := p];
        p := p + 1;
      }
      particles, particlesPrime := particlesPrime, particles;
      owner := next;
      ok := true;
    }

    /**
     * One pass of the interval loop of calculateLogP: the particles are
     * updated, the log of their mean weight is added to lp, and they are
     * resampled; it fails exactly when some particle's steps run out or
     * the resampling throws, and otherwise the particles and the log density are those of the value
     * model of the interval.
     */
    method RunInterval(exp: real -> real, ln: real -> real, r: Rates, origin: real, treeNodes: seq<SNode>, i: nat,
                       d: IntervalDraws, lp: Double, ghost states: seq<PState>)
      returns (ok: bool, lp1: Double, ghost next: seq<PState>)
      requires Valid() && |treeNodes| == nodeCount && i < |treeNodes| && Tree(treeNodes) && Fits(d, nParticles)
      requires Holds(particles, states) && AllShaped(states, |treeNodes|)
      modifies this`aTotNS, this`aTotSamp, aInfect, aActivate, aRecover, weights, Current()
      modifies this`particles, this`particlesPrime, this`owner, particlesPrime
      ensures Valid()
      ensures (particles == old(particles) && particlesPrime == old(particlesPrime))
           || (particles == old(particlesPrime) && particlesPrime == old(particles))
      ensures forall o :: o in Current() ==> o in old(Current()) || fresh(o)
      ensures var o := Interval(exp, ln, r, origin, states, treeNodes, i, d, lp);
              && (ok <==> o.Some?)
              && (ok ==> next == o.value.0 && Holds(particles, next) && lp1 == o.value.1)
    {
      var tStart := if i > 0 then origin - treeNodes[i - 1].height else 0.0;
      ghost var us := Updates(exp, r, origin, states, treeNodes, i, d.particles);
      ok := UpdateAll(exp, r, origin, treeNodes, i, tStart, d.particles, states);
      if !ok {
        return false, lp, states;
      }
      lp1 := Add(lp, LogOf(ln, MeanOf(weights[..])));
      ok := Resample(d.picks, UpdatedStates(us));
      if !ok {
        return false, lp, states;
      }
      next := Resampled(UpdatedStates(us), Choices(weights[..], d.picks));
    }

    /**
     * calculateLogP: the tree's nodes sorted highest first, every particle
     * reset, one interval of the filter per node, then the term for the
     * arbitrary order of the leaves sampled at the present, counted once
     * by the constructor and not again for the current tree. It fails
     * exactly when some particle's steps run out or a resampling throws;
     * otherwise the particles
     * and the log density are those of the value model.
     */
    method CalculateLogP(exp: real -> real, ln: real -> real, lnGamma: real -> real, r: Rates, origin: real, S0: int,
                         nodes: seq<SNode>, draws: seq<IntervalDraws>, ghost states: seq<PState>)
      returns (ok: bool)
      requires Valid() && |nodes| == nodeCount && 1 <= |nodes| && Tree(nodes)
      requires |draws| == |nodes| && AllFit(draws, nParticles)
      requires Holds(particles, states) && AllShaped(states, |nodes|)
      modifies this, aInfect, aActivate, aRecover, weights, particles, particlesPrime, Current()
      ensures Valid()
      ensures var o := LogP(exp, ln, lnGamma, r, origin, S0, states, nodes, nContemp, draws);
              && (ok <==> o.Some?)
              && (ok ==> Holds(particles, o.value.0) && logP == o.value.1)
    {
      var lp;
      ghost var fin;
      ok, lp, fin := Filtering(exp, ln, r, origin, S0, nodes, draws, states);
      if !ok {
        LogPFailed(exp, ln, lnGamma, r, origin, S0, states, nodes, nContemp, draws);
        return;
      }
      LogPFinished(exp, ln, lnGamma, r, origin, S0, states, nodes, draws, fin, lp, nContemp);
      logP := Add(lp, Finite(lnGamma((nContemp + 1) as real)));
    }

    /** The particles reset and the filter run over the nodes sorted highest first. */
    method Filtering(exp: real -> real, ln: real -> real, r: Rates, origin: real, S0: int,
                     nodes: seq<SNode>, draws: seq<IntervalDraws>, ghost states: seq<PState>)
      returns (ok: bool, lp: Double, ghost fin: seq<PState>)
      requires Valid() && |nodes| == nodeCount && 1 <= |nodes| && Tree(nodes)
      requires |draws| == |nodes| && AllFit(draws, nParticles)
      requires Holds(particles, states) && AllShaped(states, |nodes|)
      modifies this`aTotNS, this`aTotSamp, aInfect, aActivate, aRecover, weights, Current()
      modifies this`particles, this`particlesPrime, this`owner, particles, particlesPrime
      ensures Valid()
      ensures |TreeNodes(nodes)| == |nodes| && Tree(TreeNodes(nodes)) && AllShaped(Reset(states, S0), |nodes|)
      ensures var o := Filter(exp, ln, r, origin, Reset(states, S0), TreeNodes(nodes), 0, draws, Finite(0.0));
              && (ok <==> o.Some?)
              && (ok ==> Holds(particles, fin) && o.value == (fin, lp))
    {
      TreeNodesTree(nodes);
      var treeNodes := TreeNodes(nodes);
      ResetAll(S0, states);
      ok, lp, fin := RunFilter(exp, ln, r, origin, treeNodes, draws, Reset(states, S0));
    }

    /** The loop of calculateLogP over the intervals between tree nodes, each one an update followed by a resampling. */
    method RunFilter(exp: real -> real, ln: real -> real, r: Rates, origin: real, treeNodes: seq<SNode>,
                     draws: seq<IntervalDraws>, ghost start: seq<PState>)
      returns (ok: bool, lp: Double, ghost fin: seq<PState>)
      requires Valid() && |treeNodes| == nodeCount && Tree(treeNodes) && |draws| == |treeNodes| && AllFit(draws, nParticles)
      requires Holds(particles, start) && AllShaped(start, |treeNodes|)
      modifies this`aTotNS, this`aTotSamp, aInfect, aActivate, aRecover, weights, Current()
      modifies this`particles, this`particlesPrime, this`owner, particles, particlesPrime
      ensures Valid()
      ensures var o := Filter(exp, ln, r, origin, start, treeNodes, 0, draws, Finite(0.0));
              && (ok <==> o.Some?)
              && (ok ==> Holds(particles, fin) && o.value == (fin, lp))
    {
      lp := Finite(0.0);
      fin := start;
      ghost var goal := Filter(exp, ln, r, origin, start, treeNodes, 0, draws, Finite(0.0));
      var i := 0;
      while i < |treeNodes|
        invariant 0 <= i <= |treeNodes|
        invariant Valid() && Holds(particles, fin) && AllShaped(fin, |treeNodes|)
        invariant (particles == old(particles) && particlesPrime == old(particlesPrime))
               || (particles == old(particlesPrime) && particlesPrime == old(particles))
        invariant forall o :: o in Current() ==> o in old(Current()) || fresh(o)
        invariant Filter(exp, ln, r, origin, fin, treeNodes, i, draws, lp) == goal
      {
        ghost var next;
        var lp1;
        ok, lp1, next := RunInterval(exp, ln, r, origin, treeNodes, i, draws[i], lp, fin);
        if !ok {
          FilterStop(exp, ln, r, origin, fin, treeNodes, i, draws, lp);
          return;
        }
        FilterStep(exp, ln, r, origin, fin, treeNodes, i, draws, lp, next, lp1);
        fin, lp := next, lp1;
        i := i + 1;
      }
      ok := true;
    }
  }
}
