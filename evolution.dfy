/**
 * Per-particle evolution of biofouling level, degradation state and diameter
 * over one time step, and what any number of steps preserves.
 *
 * Both states grow by a per-day rate scaled to the step and multiplied by a
 * depth-dependent surface factor, and are capped at 1. A positive degradation
 * rate then shrinks the diameter by the factor `1 - 0.1 * degradation`, taken
 * from the degradation state just computed. A rate that is not positive
 * leaves its state (and, for degradation, the diameter) untouched.
 */
module StateEvolution {
  import opened Config

  function Min(a: real, b: real): (r: real)
    ensures r <= a && r <= b
    ensures r == a || r == b
  {
    if a <= b then a else b
  }

  /** Biofouling is twice as fast above 10 m depth. */
  function BiofoulingSurfaceFactor(z: real): (r: real)
    ensures r == 2.0 <==> z > -10.0
    ensures r == 1.0 <==> z <= -10.0
  {
    if z > -10.0 then 2.0 else 1.0
  }

  /** Degradation (UV exposure) is three times as fast in the top half metre. */
  function DegradationSurfaceFactor(z: real): (r: real)
    ensures r == 3.0 <==> z > -0.5
    ensures r == 1.0 <==> z <= -0.5
  {
    if z > -0.5 then 3.0 else 1.0
  }

  /** Biofouling level after one step of `dt` seconds at depth `z`. */
  function NextBiofouling(level: real, z: real, rate: real, dt: real): (r: real)
    ensures rate > 0.0 ==> r <= 1.0
    ensures rate > 0.0 && dt >= 0.0 && level <= 1.0 ==> level <= r
    ensures rate > 0.0 && level + PerStep(rate, dt) * BiofoulingSurfaceFactor(z) <= 1.0
            ==> r == level + PerStep(rate, dt) * BiofoulingSurfaceFactor(z)
    ensures rate <= 0.0 ==> r == level
  {
    if rate > 0.0 then Min(1.0, level + PerStep(rate, dt) * BiofoulingSurfaceFactor(z)) else level
  }

  /** Degradation state after one step of `dt` seconds at depth `z`. */
  function NextDegradation(state: real, z: real, rate: real, dt: real): (r: real)
    ensures rate > 0.0 ==> r <= 1.0
    ensures rate > 0.0 && dt >= 0.0 && state <= 1.0 ==> state <= r
    ensures rate > 0.0 && state + PerStep(rate, dt) * DegradationSurfaceFactor(z) <= 1.0
            ==> r == state + PerStep(rate, dt) * DegradationSurfaceFactor(z)
    ensures rate <= 0.0 ==> r == state
  {
    if rate > 0.0 then Min(1.0, state + PerStep(rate, dt) * DegradationSurfaceFactor(z)) else state
  }

  /**
   * Diameter after one step, given the degradation state already updated in
   * this step. A degradation state in [0, 1] shrinks it by at most 10 percent.
   */
  function NextDiameter(diameter: real, newDegradation: real, rate: real): (r: real)
    ensures rate > 0.0 && 0.0 <= newDegradation <= 1.0 && diameter > 0.0
            ==> 0.9 * diameter <= r <= diameter && r > 0.0
    ensures rate <= 0.0 ==> r == diameter
  {
    if rate > 0.0 then
      var shrink := 1.0 - 0.1 * newDegradation;
      assert diameter > 0.0 && 0.9 <= shrink <= 1.0 ==> 0.9 * diameter <= diameter * shrink <= diameter by {
        if diameter > 0.0 && 0.9 <= shrink <= 1.0 {
          assert diameter * shrink - 0.9 * diameter == diameter * (shrink - 0.9);
          assert diameter - diameter * shrink == diameter * (1.0 - shrink);
        }
      }
      diameter * shrink
    else
      diameter
  }

  /** The three internal values a step changes. */
  datatype Fouling = Fouling(biofouling: real, degradation: real, diameter: real)

  /**
   * One step at depth `z`: biofouling, then degradation, then shrinkage from
   * the new degradation. A zero rate leaves its part alone; with non-negative
   * rates and a forward step, levels in [0, 1] stay there and do not drop, and
   * a positive diameter stays positive and does not grow.
   */
  function Evolve(s: Fouling, z: real, biofoulingRate: real, degradationRate: real, dt: real): (r: Fouling)
    ensures biofoulingRate == 0.0 ==> r.biofouling == s.biofouling
    ensures degradationRate == 0.0 ==> r.degradation == s.degradation && r.diameter == s.diameter
    ensures && InUnit(s.biofouling) && InUnit(s.degradation) && s.diameter > 0.0
            && biofoulingRate >= 0.0 && degradationRate >= 0.0 && dt >= 0.0
            ==> && InUnit(r.biofouling) && s.biofouling <= r.biofouling
                && InUnit(r.degradation) && s.degradation <= r.degradation
                && 0.0 < r.diameter <= s.diameter
  {
    var degradation := NextDegradation(s.degradation, z, degradationRate, dt);
    Fouling(NextBiofouling(s.biofouling, z, biofoulingRate, dt),
            degradation,
            NextDiameter(s.diameter, degradation, degradationRate))
  }

  /** One time step as the external engine runs it: the particle's depth and the step length. */
  datatype Step = Step(z: real, dt: real)

  /**
   * The state after a sequence of steps, taken first to last: the result is
   * the last step applied to the state after all the earlier ones.
   */
  function EvolveSteps(s: Fouling, biofoulingRate: real, degradationRate: real, steps: seq<Step>): (r: Fouling)
    ensures |steps| == 0 ==> r == s
    ensures |steps| > 0 ==>
      var last := steps[|steps| - 1];
      r == Evolve(EvolveSteps(s, biofoulingRate, degradationRate, steps[..|steps| - 1]),
                  last.z, biofoulingRate, degradationRate, last.dt)
    decreases |steps|
  {
    if |steps| == 0 then s
    else
      var next := Evolve(s, steps[0].z, biofoulingRate, degradationRate, steps[0].dt);
      var rest := steps[1..];
      assert |rest| > 0 ==> rest[..|rest| - 1] == steps[..|steps| - 1][1..] && rest[|rest| - 1] == steps[|steps| - 1];
      EvolveSteps(next, biofoulingRate, degradationRate, rest)
  }

  predicate InUnit(x: real) {
    0.0 <= x <= 1.0
  }

  predicate ForwardInTime(steps: seq<Step>) {
    forall k :: 0 <= k < |steps| ==> steps[k].dt >= 0.0
  }

  /**
   * With non-negative rates and forward time steps, both states stay in
   * [0, 1] and never decrease, and a positive diameter stays positive and
   * never grows, however many steps are taken.
   */
  lemma {:induction false} EvolveStepsBounded(s: Fouling, biofoulingRate: real, degradationRate: real,
                                              steps: seq<Step>)
    requires InUnit(s.biofouling) && InUnit(s.degradation) && s.diameter > 0.0
    requires biofoulingRate >= 0.0 && degradationRate >= 0.0
    requires ForwardInTime(steps)
    ensures var t := EvolveSteps(s, biofoulingRate, degradationRate, steps);
            && InUnit(t.biofouling) && s.biofouling <= t.biofouling
            && InUnit(t.degradation) && s.degradation <= t.degradation
            && 0.0 < t.diameter <= s.diameter
    decreases |steps|
  {
    if |steps| > 0 {
      var next := Evolve(s, steps[0].z, biofoulingRate, degradationRate, steps[0].dt);
      assert ForwardInTime(steps[1..]) by {
        forall k | 0 <= k < |steps[1..]| ensures steps[1..][k].dt >= 0.0 {
          assert steps[1..][k] == steps[k + 1];
        }
      }
      assert steps[0].dt >= 0.0;
      EvolveStepsBounded(next, biofoulingRate, degradationRate, steps[1..]);
    }
  }


  /** A zero biofouling rate leaves the biofouling level unchanged by any number of steps. */
  lemma {:induction false} ZeroBiofoulingRateKeepsLevel(s: Fouling, degradationRate: real, steps: seq<Step>)
    ensures EvolveSteps(s, 0.0, degradationRate, steps).biofouling == s.biofouling
    decreases |steps|
  {
    if |steps| > 0 {
      var next := Evolve(s, steps[0].z, 0.0, degradationRate, steps[0].dt);
      ZeroBiofoulingRateKeepsLevel(next, degradationRate, steps[1..]);
    }
  }

  /** A zero degradation rate leaves degradation state and diameter unchanged by any number of steps. */
  lemma {:induction false} ZeroDegradationRateKeepsSize(s: Fouling, biofoulingRate: real, steps: seq<Step>)
    ensures var t := EvolveSteps(s, biofoulingRate, 0.0, steps);
            t.degradation == s.degradation && t.diameter == s.diameter
    decreases |steps|
  {
    if |steps| > 0 {
      var next := Evolve(s, steps[0].z, biofoulingRate, 0.0, steps[0].dt);
      ZeroDegradationRateKeepsSize(next, biofoulingRate, steps[1..]);
    }
  }

  /**
   * Worked case: a biofouling rate of 0.05 per day over one hour at 5 m depth
   * (surface factor 2) adds 1/240 to the level.
   */
  lemma ExampleBiofoulingStep(level: real)
    requires level <= 1.0 - 1.0 / 240.0
    ensures NextBiofouling(level, -5.0, 0.05, 3600.0) == level + 1.0 / 240.0
  {
  }

  /**
   * Worked case: a degradation rate of 0.01 per day over one hour at 1 m depth
   * (surface factor 1) adds 1/2400 to the state, and the diameter shrinks by
   * the factor `1 - 0.1 * newState`.
   */
  lemma ExampleDegradationStep(state: real, diameter: real)
    requires state <= 1.0 - 1.0 / 2400.0
    ensures var s := Evolve(Fouling(0.0, state, diameter), -1.0, 0.0, 0.01, 3600.0);
            && s.degradation == state + 1.0 / 2400.0
            && s.diameter == diameter * (1.0 - 0.1 * (state + 1.0 / 2400.0))
  {
  }
}
