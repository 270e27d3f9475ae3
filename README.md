# Microplastic drift: per-step particle rules

This project models the microplastic-specific rules that OpenDrift's
`MicroplasticDrift` adds on top of the general ocean-drift engine. It also proves
properties of those rules. The rules are:

- **State evolution.** Each step raises a particle's biofouling level and degradation
  state. Each rise is a per-day rate scaled to the time step and multiplied by a
  near-surface factor, and both values are capped at 1. A positive degradation rate
  then shrinks the diameter by `1 - 0.1 * degradation`, using the state just computed.
- **Terminal velocity.** This is Stokes' law: gravity times the relative density
  excess times the squared diameter in metres, divided by
  `18 * 0.0014 * shape_factor`. Biofouling raises the effective density linearly.
- **Seafloor resuspension.** A particle below the floor whose random draw is under
  `rate * dt / 86400` is lifted to 0.5 m above the floor.
- **Coastline interaction.** There are three modes: `none`, `stranding` or
  `partial_stranding`. They deactivate land-flagged particles with reason
  `"stranded"`: never, always, or when that particle's draw is below one half.
- **Seeding defaults.** A diameter, density or shape factor the caller leaves out
  comes from the configuration.

Layout, one module per component:

- `config.dfy` (`Config`): the configuration record, its registry bounds
  (`Config.Valid`), the defaults, and the per-day to per-step conversion.
- `velocity.dfy` (`Velocity`): the terminal-velocity formula and its sign and
  monotonicity lemmas.
- `evolution.dfy` (`StateEvolution`): one step of biofouling, degradation and
  shrinkage for one particle (`Evolve`), and lemmas over any number of steps.
- `seafloor.dfy` (`Seafloor`): resuspension of one particle.
- `coastline.dfy` (`Coastline`): the land-index list, selection of that list by
  the draws, and `Strands`, which defines which particles strand.
- `seeding.dfy` (`Seeding`): resolving missing seed attributes.
- `drift.dfy` (`Drift`): the class `MicroplasticDrift`, with one array per element
  attribute and the methods that update those arrays in place.
  - Each method is proved against the matching per-particle function.
  - The arrays are `const` fields: their references never change, only their contents.

Arithmetic is over Dafny `real`, not float32.

Inputs from outside the model are parameters:

- The environment sampled for the step: `seaWaterDensity`, `seaFloorDepth` and `landMask`.
- The time step.
- The random draws, as a sequence of values used in place of `np.random.random`.
  - For resuspension there is one draw per element, indexed by element.
  - For partial stranding there is one draw per land-flagged element, indexed by
    the element's position in the ascending list of land-flagged indices.

Where the code and its comment differ, the model follows the code.

- **Sign of the terminal velocity.** The comment in the source says a negative
  value means sinking. The formula gives a positive value when the effective
  density exceeds the water density. The model keeps the formula:
  `Velocity.VelocitySign` proves "positive exactly when denser than water".
  Under the source's own comment, that means a particle denser than water rises.
- **Partial stranding moves nothing.** The comment on partial stranding says the
  particles that do not strand are moved back. The code (opendrift/models/microplastics.py:245-249) moves nothing:
  a land particle whose draw is at least one half stays active where it is. The
  model does the same, because `InteractWithCoastline` changes only element status.

Two further facts about the model:

- **Resuspension draws.** One value is drawn for each element, and element `i` uses
  draw `i` (opendrift/models/microplastics.py:217).
- **Worked velocity value.** For density 1050, water 1025, no fouling and a 1 mm
  sphere, the velocity lies strictly between 9.494e-6 and 9.495e-6 m/s
  (`Velocity.ExampleVelocity`).

## Model

| member | source | states |
|---|---|---|
| `Config.PerStep` | opendrift/models/microplastics.py:170 | the per-step fraction `rate * dt / 86400` is non-negative for a non-negative rate and forward step, and at most the daily rate for a step of at most one day |
| `Config.DefaultConfigValid` | opendrift/models/microplastics.py:84-126 | the registry defaults (diameter 1.0, density 920, shape 1.0, all rates 0, mode none) satisfy the declared bounds |
| `Velocity.EffectiveDensity` | opendrift/models/microplastics.py:140-141 | the effective density is `density * (1 + biofouling)`: no fouling leaves the material density, and for non-negative density with fouling in [0, 1] it lies between the density and twice the density |
| `Velocity.TerminalVelocity` | opendrift/models/microplastics.py:140-155 | Stokes' law: `9.81 * (effective - water) / water * (diameter/1000)^2 / (18 * 0.0014 * shape_factor)`; it is 0 for a neutrally buoyant particle and for zero diameter |
| `Velocity.VelocityIsScaledExcess` | opendrift/models/microplastics.py:140-155 | the velocity equals a non-negative gain (zero only for zero diameter) times `density*(1+biofouling) - water_density` |
| `Velocity.VelocitySign` | opendrift/models/microplastics.py:149-155 | for positive water density, shape factor and nonzero diameter: velocity > 0 iff effective density > water density, = 0 iff equal, < 0 iff less |
| `Velocity.SpeedMonotoneInDensityExcess` | opendrift/models/microplastics.py:149-155 | for fixed diameter, shape and water density, a larger absolute density difference never gives a smaller speed |
| `Velocity.VelocityMonotoneInBiofouling` | opendrift/models/microplastics.py:139-141 | for positive material density, more biofouling never lowers the velocity |
| `Velocity.SpeedAntitoneInShapeFactor` | opendrift/models/microplastics.py:153-155 | a larger shape factor never increases the speed |
| `Velocity.ExampleVelocity` | opendrift/models/microplastics.py:140-155 | density 1050, water 1025, no fouling, 1 mm sphere: velocity between 9.494e-6 and 9.495e-6 m/s |
| `StateEvolution.BiofoulingSurfaceFactor` | opendrift/models/microplastics.py:172-175 | the biofouling factor is 2 exactly when the particle is above 10 m depth (`z > -10`), and 1 otherwise |
| `StateEvolution.DegradationSurfaceFactor` | opendrift/models/microplastics.py:186-189 | the degradation factor is 3 exactly when the particle is in the top half metre (`z > -0.5`), and 1 otherwise |
| `StateEvolution.NextBiofouling` | opendrift/models/microplastics.py:169-180 | with a positive rate the new level is at most 1, at least the old level (forward step, old level at most 1), and exactly old + increment × factor (2 above 10 m depth, else 1) when that is at most 1; with rate 0 it is unchanged |
| `StateEvolution.NextDegradation` | opendrift/models/microplastics.py:183-194 | the same for degradation, with surface factor 3 above 0.5 m depth, else 1 |
| `StateEvolution.NextDiameter` | opendrift/models/microplastics.py:196-198 | with a positive rate and new degradation in [0, 1], a positive diameter stays positive and lands between 90% and 100% of the old one; with rate 0 it is unchanged |
| `StateEvolution.Evolve` | opendrift/models/microplastics.py:169-198 | one step: biofouling, degradation, then shrinkage using the new degradation; a zero rate leaves its part unchanged; with non-negative rates and a forward step, levels in [0, 1] stay there and do not drop, and a positive diameter stays positive and does not grow |
| `StateEvolution.EvolveSteps` | opendrift/models/microplastics.py:160-198 | the state after a sequence of time steps: no steps leave the state as it is, and otherwise the result is the last step applied to the state after all the earlier ones |
| `StateEvolution.EvolveStepsBounded` | opendrift/models/microplastics.py:169-198 | over any sequence of forward steps with non-negative rates, biofouling and degradation stay in [0, 1] and never decrease, and a positive diameter stays positive and never grows |
| `StateEvolution.ZeroBiofoulingRateKeepsLevel` | opendrift/models/microplastics.py:169 | with biofouling rate 0 the level is unchanged by any number of steps |
| `StateEvolution.ZeroDegradationRateKeepsSize` | opendrift/models/microplastics.py:183-198 | with degradation rate 0, degradation state and diameter are unchanged by any number of steps |
| `StateEvolution.ExampleBiofoulingStep` | opendrift/models/microplastics.py:170-180 | rate 0.05/day, one hour, depth 5 m: the level rises by exactly 1/240 |
| `StateEvolution.ExampleDegradationStep` | opendrift/models/microplastics.py:184-198 | rate 0.01/day, one hour, depth 1 m: the state rises by 1/2400 and the diameter is multiplied by `1 - 0.1 * newState` |
| `Seafloor.Resuspend` | opendrift/models/microplastics.py:215-223 | the depth becomes `-floor + 0.5` exactly when the particle is below the floor and its draw is under the probability, and is unchanged otherwise; it never moves a particle down, and a moved particle ends strictly above the floor |
| `Seafloor.CertainResuspension` | opendrift/models/microplastics.py:214-217 | a probability of at least 1 with draws in [0, 1) lifts every particle below the floor |
| `Coastline.LandIndices` | opendrift/models/microplastics.py:235 | the list holds exactly the indices whose land mask is 1, in strictly ascending order |
| `Coastline.LandIndicesOfPrefix` | opendrift/models/microplastics.py:235 | the land indices of a prefix of the mask are a prefix of the land indices of the whole mask |
| `Coastline.LandRank` | opendrift/models/microplastics.py:235-246 | the position of a particle among the land-flagged particles, which is the index of its draw at :246: it is 0 for the first particle, at most the particle's index, and goes up by one past each land-flagged particle |
| `Coastline.LandRankIndex` | opendrift/models/microplastics.py:235 | a land-flagged particle appears in the land-index list at the position equal to the number of land-flagged particles before it |
| `Coastline.SelectByDraw` | opendrift/models/microplastics.py:246 | the selection is a subset of the indices and keeps every index whose draw is below the probability |
| `Coastline.SelectedExactly` | opendrift/models/microplastics.py:246 | in an ascending list, an index is selected iff its own draw is below the probability |
| `Coastline.Strands` | opendrift/models/microplastics.py:229-249 | a stranded particle is on land; mode none strands nothing; mode stranding strands exactly the land-flagged particles |
| `Coastline.PartialStrandingByRank` | opendrift/models/microplastics.py:243-249 | in partial mode the k-th land-flagged particle strands iff draw k is below 0.5 |
| `Coastline.PartialStrandingIsSelection` | opendrift/models/microplastics.py:243-249 | selecting the land indices by the draws, as the handler does, yields exactly the particles `Strands` names in partial mode |
| `Seeding.OrDefault` | opendrift/models/microplastics.py:256-257 | a given value is kept; a missing one is replaced by the default |
| `Seeding.ResolveSeed` | opendrift/models/microplastics.py:255-263 | each of diameter, density, shape factor that is given is kept; each missing one is `seed:diameter`, `seed:density`, `seed:shape_factor` |
| `Seeding.ResolvedWithinBounds` | opendrift/models/microplastics.py:85-101 | with a valid configuration and given values in the registry ranges, the resolved attributes are in those ranges, so diameter and shape factor are positive |
| `Seeding.ResolveIdempotent` | opendrift/models/microplastics.py:255-263 | resolving attributes that are all given returns them unchanged |
| `Seeding.DefaultSeedMatchesElementDefaults` | opendrift/models/microplastics.py:30-42 | under the default configuration, seeding with nothing given yields the element-type defaults 1.0 mm, 920 kg/m3, 1.0 |
| `Drift.MicroplasticDrift.Seed` | opendrift/models/microplastics.py:251-269 | the element arrays are newly allocated, so later steps can update them; every seeded element gets the resolved diameter, density and shape factor; biofouling and degradation start at 0 and every element is active; a positive resolved shape factor gives `ShapesPositive`, and together with a positive diameter the bounded-state invariant (levels in [0, 1], diameter and shape factor positive) holds |
| `Drift.MicroplasticDrift.EvolveBiofouling` | opendrift/models/microplastics.py:169-180 | every element's new biofouling level is `NextBiofouling` of its old level at its depth; nothing else changes |
| `Drift.MicroplasticDrift.EvolveDegradation` | opendrift/models/microplastics.py:183-198 | every element's new degradation state is `NextDegradation` of the old one, and its new diameter is `NextDiameter` of the old diameter and the new state |
| `Drift.MicroplasticDrift.EvolveState` | opendrift/models/microplastics.py:160-198 | every element's (biofouling, degradation, diameter) becomes `Evolve` of the old triple at its depth; for a forward step this preserves "levels in [0, 1], diameter > 0" |
| `Drift.MicroplasticDrift.UpdateTerminalVelocity` | opendrift/models/microplastics.py:129-158 | given the invariant's positive shape factors and nonzero water density, every element's terminal velocity is the formula applied to its current attributes and sampled water density |
| `Drift.MicroplasticDrift.Update` | opendrift/models/microplastics.py:160-201 | state evolution, then terminal velocity from the evolved state; the bounded-state invariant is preserved for a forward step |
| `Drift.MicroplasticDrift.InteractWithSeafloor` | opendrift/models/microplastics.py:213-223 | with a positive rate every element's depth becomes `Resuspend` of its old depth, floor depth and its own draw; with rate 0 no depth changes |
| `Drift.MicroplasticDrift.Deactivate` | opendrift/models/microplastics.py:241 | exactly the listed elements become deactivated with the given reason; all others keep their status |
| `Drift.MicroplasticDrift.InteractWithCoastline` | opendrift/models/microplastics.py:225-249 | exactly the elements `Strands` names become deactivated with reason "stranded"; every other element, and every element not on land, keeps its status |
| `Drift.SeedThenStep` | opendrift/models/microplastics.py:160-263 | seeding with all attributes from the configuration and then one forward step (update, seafloor, coastline) leaves every element one `Evolve` step from the seeded state, keeps the bounded-state invariant, and strands exactly the elements `Strands` names: none in mode none, exactly those with land mask 1 in mode stranding; all others stay active |

## Left out

- Advection, vertical mixing and the engine's base seafloor handling: these are the parent model's `update` and `interact_with_seafloor`, whose code is not part of this model.
- The internals of `deactivate_elements`: only its effect is modelled, a status set to `Deactivated(reason)`. The engine's later removal of deactivated elements from the arrays is also not modelled.
- The configuration registry and `get_config`: configured values are a `Config` record, and the registry's bounds are the precondition `Config.Valid`.
- Environment sampling, readers and the fallback values of the required variables: the sampled fields are method parameters.
- The debug log message on resuspension.
- float32 storage and rounding: all arithmetic is over exact reals.
- Random number generation: the draws are parameters.
- The example script: it only drives a simulation with remote readers, writes output files and plots.
- Drift.MicroplasticDrift.Seed: models one seeding call on a fresh model. Several calls appending elements are not modelled. Position and other seed arguments are passed to the engine and not modelled either.
- Drift.MicroplasticDrift.UpdateTerminalVelocity: requires a nonzero sampled water density, because Dafny's division needs it. The positive shape factors come from the invariant `ShapesPositive`, which seeding with an in-range shape factor establishes. With a zero divisor the source produces an infinite or undefined value.
- StateEvolution.EvolveStepsBounded: monotonicity and the [0, 1] bounds are stated for forward time steps only. With a negative time step, which the engine allows for backward runs, a positive rate lowers both states.
- StateEvolution.EvolveStepsBounded: does not state a lower bound on the diameter after n steps beyond its staying positive.
