/**
 * Terminal velocity of a microplastic particle: Stokes' law with a shape
 * factor on the drag and biofouling raising the effective density.
 *
 * The formula is kept exactly as the drift model's code computes it: it is
 * positive when the effective density exceeds the water density.
 */
module Velocity {

  const Gravity: real := 9.81          // m/s^2
  const WaterViscosity: real := 0.0014 // Pa s, dynamic viscosity of sea water

  /** Biofouling raises effective density linearly: a fully fouled particle is twice as dense. */
  function EffectiveDensity(density: real, biofoulingLevel: real): (r: real)
    ensures biofoulingLevel == 0.0 ==> r == density
    ensures density >= 0.0 && 0.0 <= biofoulingLevel <= 1.0 ==> density <= r <= 2.0 * density
  {
    assert density * (1.0 + biofoulingLevel) == density + Times(density, biofoulingLevel);
    assert density * (1.0 + biofoulingLevel) == 2.0 * density - Times(density, 1.0 - biofoulingLevel);
    TimesSign(density, biofoulingLevel);
    TimesSign(density, 1.0 - biofoulingLevel);
    density * (1.0 + biofoulingLevel)
  }

  /**
   * Terminal velocity (m/s) of a particle of `diameter` mm in water of
   * `waterDensity` kg/m3. A neutrally buoyant particle, or one of zero size,
   * has none.
   */
  function TerminalVelocity(density: real, biofoulingLevel: real, diameter: real,
                            shapeFactor: real, waterDensity: real): (r: real)
    requires waterDensity != 0.0 && shapeFactor != 0.0
    ensures EffectiveDensity(density, biofoulingLevel) == waterDensity ==> r == 0.0
    ensures diameter == 0.0 ==> r == 0.0
  {
    var diameterM := diameter / 1000.0;
    var submergedWeight := Gravity * (EffectiveDensity(density, biofoulingLevel) - waterDensity) / waterDensity;
    submergedWeight * Square(diameterM) / (18.0 * WaterViscosity * shapeFactor)
  }

  function Square(x: real): (r: real)
    ensures r >= 0.0
    ensures x != 0.0 ==> r > 0.0
  {
    TimesSign(x, x);
    Times(x, x)
  }

  /** The part of the gain that does not depend on the shape factor. */
  function SphereGain(diameter: real, waterDensity: real): (k: real)
    requires waterDensity > 0.0
    ensures k >= 0.0
    ensures diameter != 0.0 ==> k > 0.0
  {
    Gravity * Square(diameter / 1000.0) / (waterDensity * 18.0 * WaterViscosity)
  }

  /**
   * The factor by which the density excess is multiplied: gravity and the
   * squared diameter over water density, viscosity and shape factor.
   */
  function Gain(diameter: real, shapeFactor: real, waterDensity: real): (k: real)
    requires waterDensity > 0.0 && shapeFactor > 0.0
    ensures k >= 0.0
    ensures diameter != 0.0 ==> k > 0.0
  {
    SphereGain(diameter, waterDensity) / shapeFactor
  }

  /** The velocity is the density excess `EffectiveDensity - waterDensity` times a non-negative gain. */
  lemma VelocityIsScaledExcess(density: real, biofoulingLevel: real, diameter: real,
                               shapeFactor: real, waterDensity: real)
    requires waterDensity > 0.0 && shapeFactor > 0.0
    ensures TerminalVelocity(density, biofoulingLevel, diameter, shapeFactor, waterDensity)
         == Times(Gain(diameter, shapeFactor, waterDensity), EffectiveDensity(density, biofoulingLevel) - waterDensity)
  {
    var e := EffectiveDensity(density, biofoulingLevel) - waterDensity;
    var s := Square(diameter / 1000.0);
    var c := 18.0 * WaterViscosity * shapeFactor;
    calc {
      TerminalVelocity(density, biofoulingLevel, diameter, shapeFactor, waterDensity);
      (Gravity * e / waterDensity) * s / c;
      { assert (Gravity * e / waterDensity) * s == (Gravity * s / waterDensity) * e; }
      (Gravity * s / waterDensity) * e / c;
      (Gravity * s / (waterDensity * 18.0 * WaterViscosity) / shapeFactor) * e;
      Times(Gain(diameter, shapeFactor, waterDensity), e);
    }
  }

  /**
   * Sign of the velocity: positive exactly when the effective density exceeds
   * the water density, zero exactly when they are equal, negative otherwise.
   */
  lemma VelocitySign(density: real, biofoulingLevel: real, diameter: real,
                     shapeFactor: real, waterDensity: real)
    requires waterDensity > 0.0 && shapeFactor > 0.0 && diameter != 0.0
    ensures var v := TerminalVelocity(density, biofoulingLevel, diameter, shapeFactor, waterDensity);
            var e := EffectiveDensity(density, biofoulingLevel);
            && (v > 0.0 <==> e > waterDensity)
            && (v == 0.0 <==> e == waterDensity)
            && (v < 0.0 <==> e < waterDensity)
  {
    VelocityIsScaledExcess(density, biofoulingLevel, diameter, shapeFactor, waterDensity);
    var k := Gain(diameter, shapeFactor, waterDensity);
    var x := EffectiveDensity(density, biofoulingLevel) - waterDensity;
    TimesSign(k, x);
  }

  function Abs(x: real): (r: real)
    ensures r >= 0.0 && (r == x || r == -x)
  {
    if x < 0.0 then -x else x
  }

  /**
   * For a fixed particle size, shape and water density, the speed grows with
   * the magnitude of the density difference.
   */
  lemma SpeedMonotoneInDensityExcess(density1: real, biofouling1: real, density2: real, biofouling2: real,
                                      diameter: real, shapeFactor: real, waterDensity: real)
    requires waterDensity > 0.0 && shapeFactor > 0.0
    requires Abs(EffectiveDensity(density1, biofouling1) - waterDensity)
          <= Abs(EffectiveDensity(density2, biofouling2) - waterDensity)
    ensures Abs(TerminalVelocity(density1, biofouling1, diameter, shapeFactor, waterDensity))
         <= Abs(TerminalVelocity(density2, biofouling2, diameter, shapeFactor, waterDensity))
  {
    VelocityIsScaledExcess(density1, biofouling1, diameter, shapeFactor, waterDensity);
    VelocityIsScaledExcess(density2, biofouling2, diameter, shapeFactor, waterDensity);
    var k := Gain(diameter, shapeFactor, waterDensity);
    var x1 := EffectiveDensity(density1, biofouling1) - waterDensity;
    var x2 := EffectiveDensity(density2, biofouling2) - waterDensity;
    AbsTimes(k, x1);
    AbsTimes(k, x2);
    TimesMonotone(k, Abs(x1), Abs(x2));
  }

  /** For a particle of positive material density, more biofouling never decreases the velocity. */
  lemma VelocityMonotoneInBiofouling(density: real, biofouling1: real, biofouling2: real,
                                     diameter: real, shapeFactor: real, waterDensity: real)
    requires waterDensity > 0.0 && shapeFactor > 0.0 && density > 0.0
    requires biofouling1 <= biofouling2
    ensures TerminalVelocity(density, biofouling1, diameter, shapeFactor, waterDensity)
         <= TerminalVelocity(density, biofouling2, diameter, shapeFactor, waterDensity)
  {
    VelocityIsScaledExcess(density, biofouling1, diameter, shapeFactor, waterDensity);
    VelocityIsScaledExcess(density, biofouling2, diameter, shapeFactor, waterDensity);
    var k := Gain(diameter, shapeFactor, waterDensity);
    var e1 := EffectiveDensity(density, biofouling1);
    var e2 := EffectiveDensity(density, biofouling2);
    assert e1 <= e2 by {
      assert e2 - e1 == Times(density, biofouling2 - biofouling1);
      TimesSign(density, biofouling2 - biofouling1);
    }
    TimesMonotone(k, e1 - waterDensity, e2 - waterDensity);
  }

  /** A larger shape factor (more drag) never increases the speed. */
  lemma SpeedAntitoneInShapeFactor(density: real, biofoulingLevel: real, diameter: real,
                                   shapeFactor1: real, shapeFactor2: real, waterDensity: real)
    requires waterDensity > 0.0 && 0.0 < shapeFactor1 <= shapeFactor2
    ensures Abs(TerminalVelocity(density, biofoulingLevel, diameter, shapeFactor2, waterDensity))
         <= Abs(TerminalVelocity(density, biofoulingLevel, diameter, shapeFactor1, waterDensity))
  {
    var x := EffectiveDensity(density, biofoulingLevel) - waterDensity;
    VelocityIsScaledExcess(density, biofoulingLevel, diameter, shapeFactor1, waterDensity);
    VelocityIsScaledExcess(density, biofoulingLevel, diameter, shapeFactor2, waterDensity);
    var k1 := Gain(diameter, shapeFactor1, waterDensity);
    var k2 := Gain(diameter, shapeFactor2, waterDensity);
    DivAntitone(SphereGain(diameter, waterDensity), shapeFactor1, shapeFactor2);
    AbsTimes(k1, x);
    AbsTimes(k2, x);
    TimesMonotoneLeft(k2, k1, Abs(x));
  }

  /** Worked case: density 1050, water 1025, no fouling, 1 mm sphere gives about 9.49e-6 m/s. */
  lemma ExampleVelocity()
    ensures 0.000009494 < TerminalVelocity(1050.0, 0.0, 1.0, 1.0, 1025.0) < 0.000009495
  {
  }

  /** Real multiplication as a function, so that its sign and order facts are stated once. */
  function Times(a: real, b: real): real {
    a * b
  }

  lemma TimesSign(a: real, b: real)
    ensures (a > 0.0 && b > 0.0) || (a < 0.0 && b < 0.0) ==> Times(a, b) > 0.0
    ensures (a > 0.0 && b < 0.0) || (a < 0.0 && b > 0.0) ==> Times(a, b) < 0.0
    ensures a == 0.0 || b == 0.0 ==> Times(a, b) == 0.0
  {
    if a < 0.0 && b < 0.0 { assert a * b == (-a) * (-b); }
    if a < 0.0 && b > 0.0 { assert a * b == -((-a) * b); }
    if a > 0.0 && b < 0.0 { assert a * b == -(a * (-b)); }
  }

  lemma AbsTimes(k: real, x: real)
    requires k >= 0.0
    ensures Abs(Times(k, x)) == Times(k, Abs(x))
  {
    if x < 0.0 {
      assert k * x == -(k * -x);
      TimesSign(k, -x);
    } else {
      TimesSign(k, x);
    }
  }

  lemma TimesMonotone(k: real, a: real, b: real)
    requires k >= 0.0 && a <= b
    ensures Times(k, a) <= Times(k, b)
  {
    assert k * b - k * a == k * (b - a);
    TimesSign(k, b - a);
  }

  lemma TimesMonotoneLeft(a: real, b: real, k: real)
    requires k >= 0.0 && a <= b
    ensures Times(a, k) <= Times(b, k)
  {
    assert b * k - a * k == (b - a) * k;
    TimesSign(b - a, k);
  }

  lemma DivAntitone(b: real, a1: real, a2: real)
    requires b >= 0.0 && 0.0 < a1 <= a2
    ensures b / a2 <= b / a1
  {
    assert b / a2 == (b / a1) * (a1 / a2);
    assert a1 / a2 <= 1.0;
    assert (b / a1) * (a1 / a2) <= (b / a1) * 1.0;
  }
}
