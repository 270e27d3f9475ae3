/**
 * Seed-time defaulting: each of diameter, density and shape factor that the
 * caller leaves out is taken from the configuration.
 */
module Seeding {
  import opened Config

  datatype Option<T> = None | Some(value: T)

  /** The per-particle attributes that seeding fixes for the life of a particle. */
  datatype SeedAttributes = SeedAttributes(diameter: real, density: real, shapeFactor: real)

  /** A value the caller gave, or else the default. */
  function OrDefault(given: Option<real>, default: real): (r: real)
    ensures given.Some? ==> r == given.value
    ensures given.None? ==> r == default
  {
    match given
    case Some(v) => v
    case None => default
  }

  /** The attributes seeded particles get: given values are kept, missing ones come from `config`. */
  function ResolveSeed(config: Config, diameter: Option<real>, density: Option<real>,
                       shapeFactor: Option<real>): (r: SeedAttributes)
    ensures diameter.Some? ==> r.diameter == diameter.value
    ensures diameter.None? ==> r.diameter == config.seedDiameter
    ensures density.Some? ==> r.density == density.value
    ensures density.None? ==> r.density == config.seedDensity
    ensures shapeFactor.Some? ==> r.shapeFactor == shapeFactor.value
    ensures shapeFactor.None? ==> r.shapeFactor == config.seedShapeFactor
  {
    SeedAttributes(OrDefault(diameter, config.seedDiameter),
                   OrDefault(density, config.seedDensity),
                   OrDefault(shapeFactor, config.seedShapeFactor))
  }

  /** The ranges the configuration registry allows for the seed attributes. */
  predicate WithinSeedBounds(a: SeedAttributes) {
    && 0.001 <= a.diameter <= 100.0
    && 800.0 <= a.density <= 2500.0
    && 0.1 <= a.shapeFactor <= 10.0
  }

  predicate GivenWithin(given: Option<real>, lo: real, hi: real) {
    given.Some? ==> lo <= given.value <= hi
  }

  /**
   * With a valid configuration, seeding yields attributes in the registry's
   * ranges whenever the values the caller gave are in them; in particular a
   * seeded particle has a positive diameter and shape factor.
   */
  lemma ResolvedWithinBounds(config: Config, diameter: Option<real>, density: Option<real>,
                             shapeFactor: Option<real>)
    requires config.Valid()
    requires GivenWithin(diameter, 0.001, 100.0)
    requires GivenWithin(density, 800.0, 2500.0)
    requires GivenWithin(shapeFactor, 0.1, 10.0)
    ensures WithinSeedBounds(ResolveSeed(config, diameter, density, shapeFactor))
    ensures ResolveSeed(config, diameter, density, shapeFactor).diameter > 0.0
    ensures ResolveSeed(config, diameter, density, shapeFactor).shapeFactor > 0.0
  {
  }

  /** Resolving attributes that are all given returns them unchanged, so resolving twice changes nothing. */
  lemma ResolveIdempotent(config: Config, diameter: Option<real>, density: Option<real>,
                          shapeFactor: Option<real>)
    ensures var r := ResolveSeed(config, diameter, density, shapeFactor);
            ResolveSeed(config, Some(r.diameter), Some(r.density), Some(r.shapeFactor)) == r
  {
  }

  /**
   * Under the default configuration, seeding with nothing given agrees with
   * the defaults declared on the element type.
   */
  lemma DefaultSeedMatchesElementDefaults()
    ensures ResolveSeed(DefaultConfig, None, None, None)
         == SeedAttributes(DefaultElementDiameter, DefaultElementDensity, DefaultElementShapeFactor)
  {
  }
}
