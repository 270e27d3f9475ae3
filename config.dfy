/**
 * Run configuration of the microplastic drift model and the element defaults.
 *
 * The configuration registry validates every value against its declared
 * bounds before the model sees it; here those bounds are the predicate
 * `Config.Valid`, which the model takes as a precondition.
 */
module Config {

  /** The three values of the `microplastic:coastline_interaction` enumeration. */
  datatype CoastlineInteraction = NoInteraction | Stranding | PartialStranding

  datatype Config = Config(
    seedDiameter: real,        // seed:diameter, mm
    seedDensity: real,         // seed:density, kg/m3
    seedShapeFactor: real,     // seed:shape_factor
    biofoulingRate: real,      // microplastic:biofouling_rate, 1/day
    degradationRate: real,     // microplastic:degradation_rate, 1/day
    resuspensionRate: real,    // microplastic:resuspension_rate, 1/day
    coastlineInteraction: CoastlineInteraction)
  {
    /** The bounds the configuration registry enforces. */
    predicate Valid() {
      && 0.001 <= seedDiameter <= 100.0
      && 800.0 <= seedDensity <= 2500.0
      && 0.1 <= seedShapeFactor <= 10.0
      && 0.0 <= biofoulingRate <= 1.0
      && 0.0 <= degradationRate <= 1.0
      && 0.0 <= resuspensionRate <= 1.0
    }
  }

  /** The registry's default for every key. */
  const DefaultConfig: Config :=
    Config(1.0, 920.0, 1.0, 0.0, 0.0, 0.0, NoInteraction)

  /** Defaults of the element variables as declared on the element type. */
  const DefaultElementDiameter: real := 1.0
  const DefaultElementDensity: real := 920.0
  const DefaultElementShapeFactor: real := 1.0
  const DefaultBiofoulingLevel: real := 0.0
  const DefaultDegradationState: real := 0.0

  const SecondsPerDay: real := 86400.0

  /** A per-day rate converted to the fraction that applies over one time step of `dt` seconds. */
  function PerStep(ratePerDay: real, dt: real): (r: real)
    ensures 0.0 <= ratePerDay && 0.0 <= dt ==> 0.0 <= r
    ensures 0.0 <= ratePerDay && 0.0 <= dt <= SecondsPerDay ==> r <= ratePerDay
  {
    ratePerDay * dt / SecondsPerDay
  }

  lemma DefaultConfigValid()
    ensures DefaultConfig.Valid()
  {
  }
}
