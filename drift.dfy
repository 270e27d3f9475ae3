/**
 * The microplastic drift model's per-step rules over the element arrays.
 *
 * Each element attribute is one array, indexed by particle; the arrays are
 * fixed for the life of the object and their contents change in place. The
 * environment sampled for the current step (water density, floor depth,
 * land mask) and the random draws are passed in by the caller.
 */
module Drift {
  import opened Config
  import opened Velocity
  import opened StateEvolution
  import opened Seafloor
  import opened Coastline
  import opened Seeding

  /** Lifecycle of a particle: once deactivated it records why. */
  datatype Status = Active | Deactivated(reason: string)

  class MicroplasticDrift {
    const config: Config
    const timeStepSeconds: real

    const z: array<real>                 // depth, m, negative below the surface
    const diameter: array<real>          // mm
    const density: array<real>           // material density, kg/m3
    const shapeFactor: array<real>       // 1 for a sphere
    const biofoulingLevel: array<real>   // 0 clean .. 1 fully fouled
    const degradationState: array<real>  // 0 new .. 1 fully degraded
    const terminalVelocity: array<real>  // m/s
    const status: array<Status>

    /** Number of elements. */
    function Count(): nat {
      z.Length
    }

    /** The configuration is in its registry bounds and the arrays are parallel and distinct. */
    ghost predicate Valid() {
      && config.Valid()
      && diameter.Length == Count() && density.Length == Count() && shapeFactor.Length == Count()
      && biofoulingLevel.Length == Count() && degradationState.Length == Count()
      && terminalVelocity.Length == Count() && status.Length == Count()
      && z != diameter && z != density && z != shapeFactor && z != biofoulingLevel
      && z != degradationState && z != terminalVelocity
      && diameter != density && diameter != shapeFactor && diameter != biofoulingLevel
      && diameter != degradationState && diameter != terminalVelocity
      && biofoulingLevel != density && biofoulingLevel != shapeFactor
      && biofoulingLevel != degradationState && biofoulingLevel != terminalVelocity
      && degradationState != density && degradationState != shapeFactor
      && degradationState != terminalVelocity
      && terminalVelocity != density && terminalVelocity != shapeFactor
      && density != shapeFactor
    }

    /** Every element has a positive shape factor, so the drag term of the velocity is defined. */
    ghost predicate ShapesPositive()
      reads shapeFactor
      requires Valid()
    {
      forall i :: 0 <= i < Count() ==> shapeFactor[i] > 0.0
    }

    /**
     * Biofouling level and degradation state in [0, 1], a positive diameter
     * and a positive shape factor, for every element.
     */
    ghost predicate StateBounded()
      reads biofoulingLevel, degradationState, diameter, shapeFactor
      requires Valid()
    {
      && ShapesPositive()
      && forall i :: 0 <= i < Count() ==>
           InUnit(biofoulingLevel[i]) && InUnit(degradationState[i]) && diameter[i] > 0.0
    }

    ghost function FoulingAt(i: nat): Fouling
      reads biofoulingLevel, degradationState, diameter
      requires Valid() && i < Count()
    {
      Fouling(biofoulingLevel[i], degradationState[i], diameter[i])
    }

    /**
     * Seeds one element per entry of `zs`. Attributes the caller leaves out
     * come from the configuration; biofouling and degradation start at the
     * element defaults, and every element starts active.
     */
    constructor Seed(config: Config, timeStepSeconds: real, zs: seq<real>,
                     diameter: Option<real>, density: Option<real>, shapeFactor: Option<real>)
      requires config.Valid()
      ensures Valid()
      ensures fresh(z) && fresh(this.diameter) && fresh(this.density) && fresh(this.shapeFactor)
      ensures fresh(biofoulingLevel) && fresh(degradationState) && fresh(terminalVelocity) && fresh(status)
      ensures this.config == config && this.timeStepSeconds == timeStepSeconds
      ensures z[..] == zs
      ensures var a := ResolveSeed(config, diameter, density, shapeFactor);
              forall i :: 0 <= i < |zs| ==>
                && this.diameter[i] == a.diameter && this.density[i] == a.density
                && this.shapeFactor[i] == a.shapeFactor
                && biofoulingLevel[i] == DefaultBiofoulingLevel
                && degradationState[i] == DefaultDegradationState
                && terminalVelocity[i] == 0.0 && status[i] == Active
      ensures ResolveSeed(config, diameter, density, shapeFactor).shapeFactor > 0.0 ==> ShapesPositive()
      ensures var a := ResolveSeed(config, diameter, density, shapeFactor);
              a.diameter > 0.0 && a.shapeFactor > 0.0 ==> StateBounded()
    {
      var a := ResolveSeed(config, diameter, density, shapeFactor);
      var n := |zs|;
      this.config := config;
      this.timeStepSeconds := timeStepSeconds;
      this.z := new real[n](i requires 0 <= i < n => zs[i]);
      this.diameter := new real[n](_ => a.diameter);
      this.density := new real[n](_ => a.density);
      this.shapeFactor := new real[n](_ => a.shapeFactor);
      this.biofoulingLevel := new real[n](_ => DefaultBiofoulingLevel);
      this.degradationState := new real[n](_ => DefaultDegradationState);
      this.terminalVelocity := new real[n](_ => 0.0);
      this.status := new Status[n](_ => Active);
    }

    /** Raises every element's biofouling level by one time step, as `NextBiofouling` prescribes for its depth. */
    method EvolveBiofouling()
      requires Valid()
      modifies biofoulingLevel
      ensures forall i :: 0 <= i < Count() ==>
        biofoulingLevel[i] == NextBiofouling(old(biofoulingLevel[i]), z[i], config.biofoulingRate, timeStepSeconds)
    {
      var rate := config.biofoulingRate;
      if rate > 0.0 {
        var increment := rate * timeStepSeconds / SecondsPerDay;
        var i := 0;
        while i < Count()
          invariant 0 <= i <= Count()
          invariant forall j :: 0 <= j < i ==>
            biofoulingLevel[j] == NextBiofouling(old(biofoulingLevel[j]), z[j], rate, timeStepSeconds)
          invariant forall j :: i <= j < Count() ==> biofoulingLevel[j] == old(biofoulingLevel[j])
        {
          var surfaceFactor := if z[i] > -10.0 then 2.0 else 1.0;
          var level := Min(1.0, biofoulingLevel[i] + increment * surfaceFactor);
          assert level == NextBiofouling(biofoulingLevel[i], z[i], rate, timeStepSeconds);
          biofoulingLevel[i] := level;
          i := i + 1;
        }
      }
    }

    /**
     * Raises every element's degradation state by one time step and, with a
     * positive rate, shrinks its diameter by the factor the new state gives.
     */
    method EvolveDegradation()
      requires Valid()
      modifies degradationState, diameter
      ensures forall i :: 0 <= i < Count() ==>
        && degradationState[i] == NextDegradation(old(degradationState[i]), z[i], config.degradationRate, timeStepSeconds)
        && diameter[i] == NextDiameter(old(diameter[i]), degradationState[i], config.degradationRate)
    {
      var rate := config.degradationRate;
      if rate > 0.0 {
        var increment := rate * timeStepSeconds / SecondsPerDay;
        var i := 0;
        while i < Count()
          invariant 0 <= i <= Count()
          invariant forall j :: 0 <= j < i ==>
            && degradationState[j] == NextDegradation(old(degradationState[j]), z[j], rate, timeStepSeconds)
            && diameter[j] == NextDiameter(old(diameter[j]), degradationState[j], rate)
          invariant forall j :: i <= j < Count() ==>
            degradationState[j] == old(degradationState[j]) && diameter[j] == old(diameter[j])
        {
          var surfaceFactor := if z[i] > -0.5 then 3.0 else 1.0;
          var state := Min(1.0, degradationState[i] + increment * surfaceFactor);
          assert state == NextDegradation(degradationState[i], z[i], rate, timeStepSeconds);
          var sizeReduction := 1.0 - 0.1 * state;
          var size := diameter[i] * sizeReduction;
          assert size == NextDiameter(diameter[i], state, rate);
          degradationState[i] := state;
          diameter[i] := size;
          i := i + 1;
        }
      }
    }

    /**
     * Advances biofouling level, degradation state and diameter of every
     * element by one time step, each as `Evolve` prescribes for its depth.
     */
    method EvolveState()
      requires Valid()
      modifies biofoulingLevel, degradationState, diameter
      ensures forall i :: 0 <= i < Count() ==>
        FoulingAt(i) == Evolve(old(FoulingAt(i)), z[i], config.biofoulingRate,
                               config.degradationRate, timeStepSeconds)
      ensures old(StateBounded()) && timeStepSeconds >= 0.0 ==> StateBounded()
    {
      EvolveBiofouling();
      EvolveDegradation();
      if old(StateBounded()) && timeStepSeconds >= 0.0 {
        forall i | 0 <= i < Count()
          ensures InUnit(biofoulingLevel[i]) && InUnit(degradationState[i]) && diameter[i] > 0.0
        {
          assert old(InUnit(biofoulingLevel[i]) && InUnit(degradationState[i]) && diameter[i] > 0.0);
        }
      }
    }

    /** Sets every element's terminal velocity from its current attributes and the sampled water density. */
    method UpdateTerminalVelocity(seaWaterDensity: seq<real>)
      requires Valid() && |seaWaterDensity| == Count()
      requires ShapesPositive()
      requires forall i :: 0 <= i < Count() ==> seaWaterDensity[i] != 0.0
      modifies terminalVelocity
      ensures forall i :: 0 <= i < Count() ==>
        terminalVelocity[i] == TerminalVelocity(density[i], biofoulingLevel[i], diameter[i],
                                                shapeFactor[i], seaWaterDensity[i])
    {
      var i := 0;
      while i < Count()
        invariant 0 <= i <= Count()
        invariant forall j :: 0 <= j < i ==>
          terminalVelocity[j] == TerminalVelocity(density[j], biofoulingLevel[j], diameter[j],
                                                  shapeFactor[j], seaWaterDensity[j])
      {
        terminalVelocity[i] := TerminalVelocity(density[i], biofoulingLevel[i], diameter[i],
                                                shapeFactor[i], seaWaterDensity[i]);
        i := i + 1;
      }
    }

    /**
     * The model's part of one time step: state evolution, then terminal
     * velocity from the evolved state. Advection and mixing follow in the
     * engine.
     */
    method Update(seaWaterDensity: seq<real>)
      requires Valid() && |seaWaterDensity| == Count()
      requires ShapesPositive()
      requires forall i :: 0 <= i < Count() ==> seaWaterDensity[i] != 0.0
      modifies biofoulingLevel, degradationState, diameter, terminalVelocity
      ensures forall i :: 0 <= i < Count() ==>
        FoulingAt(i) == Evolve(old(FoulingAt(i)), z[i], config.biofoulingRate,
                               config.degradationRate, timeStepSeconds)
      ensures forall i :: 0 <= i < Count() ==>
        terminalVelocity[i] == TerminalVelocity(density[i], biofoulingLevel[i], diameter[i],
                                                shapeFactor[i], seaWaterDensity[i])
      ensures old(StateBounded()) && timeStepSeconds >= 0.0 ==> StateBounded()
    {
      EvolveState();
      UpdateTerminalVelocity(seaWaterDensity);
    }

    /**
     * Resuspension after the engine's own seafloor handling: with a positive
     * rate, each element below the floor whose draw (one per element) is
     * under the per-step probability is lifted to half a metre above the
     * floor; otherwise nothing moves.
     */
    method InteractWithSeafloor(seaFloorDepth: seq<real>, draws: seq<real>)
      requires Valid() && |seaFloorDepth| == Count()
      requires config.resuspensionRate > 0.0 ==> |draws| == Count()
      modifies z
      ensures config.resuspensionRate > 0.0 ==> forall i :: 0 <= i < Count() ==>
        z[i] == Resuspend(old(z[i]), seaFloorDepth[i], draws[i],
                          PerStep(config.resuspensionRate, timeStepSeconds))
      ensures config.resuspensionRate <= 0.0 ==> z[..] == old(z[..])
    {
      var rate := config.resuspensionRate;
      if rate > 0.0 {
        var probability := rate * timeStepSeconds / SecondsPerDay;
        var i := 0;
        while i < Count()
          invariant 0 <= i <= Count()
          invariant forall j :: 0 <= j < i ==> z[j] == Resuspend(old(z[j]), seaFloorDepth[j], draws[j], probability)
          invariant forall j :: i <= j < Count() ==> z[j] == old(z[j])
        {
          if z[i] < -seaFloorDepth[i] && draws[i] < probability {
            z[i] := -seaFloorDepth[i] + ResuspensionHeight;
          }
          i := i + 1;
        }
      }
    }

    /** Deactivates the listed elements, recording `reason`; no other element changes. */
    method Deactivate(indices: seq<nat>, reason: string)
      requires Valid()
      requires forall k :: 0 <= k < |indices| ==> indices[k] < Count()
      modifies status
      ensures forall i :: 0 <= i < Count() ==>
        status[i] == if i in indices then Deactivated(reason) else old(status[i])
    {
      var k := 0;
      while k < |indices|
        invariant 0 <= k <= |indices|
        invariant forall i :: 0 <= i < Count() ==>
          status[i] == if i in indices[..k] then Deactivated(reason) else old(status[i])
      {
        status[indices[k]] := Deactivated(reason);
        assert indices[..k + 1] == indices[..k] + [indices[k]];
        k := k + 1;
      }
      assert indices[..k] == indices;
    }

    /**
     * Coastline interaction for the configured mode: the land-flagged
     * elements are deactivated as stranded, all of them or those whose
     * draw (one per land-flagged element, in index order) is below one half.
     * Every element `Strands` does not name keeps its status.
     */
    method InteractWithCoastline(landMask: seq<real>, draws: seq<real>)
      requires Valid() && |landMask| == Count()
      requires config.coastlineInteraction == PartialStranding ==> |draws| == |LandIndices(landMask)|
      modifies status
      ensures forall i :: 0 <= i < Count() ==>
        status[i] == if Strands(config.coastlineInteraction, landMask, draws, i)
                     then Deactivated(StrandedReason) else old(status[i])
    {
      var mode := config.coastlineInteraction;
      if mode == NoInteraction {
        return;
      }
      var stranded := LandIndices(landMask);
      if |stranded| == 0 {
        return;
      }
      if mode == Stranding {
        Deactivate(stranded, StrandedReason);
      } else {
        var permanentlyStranded := SelectByDraw(stranded, draws, StrandingProbability);
        assert forall k :: 0 <= k < |permanentlyStranded| ==> permanentlyStranded[k] in stranded;
        if |permanentlyStranded| > 0 {
          Deactivate(permanentlyStranded, StrandedReason);
        }
        forall i | 0 <= i < Count()
          ensures i in permanentlyStranded <==> Strands(mode, landMask, draws, i)
        {
          PartialStrandingIsSelection(landMask, draws, i);
        }
      }
    }
  }

  /**
   * One particle lifecycle: seed with every attribute from the configuration,
   * then run one time step (state evolution and terminal velocity, seafloor
   * resuspension, coastline interaction). Each element's fouling state is
   * one `Evolve` step from the seeded state, the bounded-state invariant
   * holds, and exactly the elements `Strands` names are stranded; all others
   * are still active.
   */
  method SeedThenStep(config: Config, timeStepSeconds: real, zs: seq<real>,
                      seaWaterDensity: seq<real>, seaFloorDepth: seq<real>, resuspensionDraws: seq<real>,
                      landMask: seq<real>, strandingDraws: seq<real>)
    returns (m: MicroplasticDrift)
    requires config.Valid() && timeStepSeconds >= 0.0
    requires |seaWaterDensity| == |zs| && |seaFloorDepth| == |zs| && |landMask| == |zs|
    requires forall i :: 0 <= i < |zs| ==> seaWaterDensity[i] != 0.0
    requires config.resuspensionRate > 0.0 ==> |resuspensionDraws| == |zs|
    requires config.coastlineInteraction == PartialStranding ==> |strandingDraws| == |LandIndices(landMask)|
    ensures m.Valid() && m.Count() == |zs| && m.StateBounded()
    ensures forall i :: 0 <= i < |zs| ==>
      m.FoulingAt(i) == Evolve(Fouling(DefaultBiofoulingLevel, DefaultDegradationState, config.seedDiameter),
                               zs[i], config.biofoulingRate, config.degradationRate, timeStepSeconds)
    ensures forall i :: 0 <= i < |zs| ==>
      m.status[i] == if Strands(config.coastlineInteraction, landMask, strandingDraws, i)
                     then Deactivated(StrandedReason) else Active
    ensures config.coastlineInteraction == NoInteraction ==> forall i :: 0 <= i < |zs| ==> m.status[i] == Active
    ensures config.coastlineInteraction == Stranding ==> forall i :: 0 <= i < |zs| ==>
      (m.status[i] == Deactivated(StrandedReason) <==> OnLand(landMask[i]))
  {
    m := new MicroplasticDrift.Seed(config, timeStepSeconds, zs, None, None, None);
    ResolvedWithinBounds(config, None, None, None);
    m.Update(seaWaterDensity);
    m.InteractWithSeafloor(seaFloorDepth, resuspensionDraws);
    m.InteractWithCoastline(landMask, strandingDraws);
  }
}
