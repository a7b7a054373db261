/** The set-up calculator: ballast to reach the minimum weight, and fuel for a stint.
    Readings are real numbers; floating-point rounding is not modelled. */
module Ingenieria {
  /** `calculateBallast`: what is missing from weight and fuel to reach the target. */
  function Ballast(target: real, weight: real, fuel: real): (b: real)
    ensures weight + fuel + b == target
  {
    target - weight - fuel
  }

  /** Litres used per lap on average. */
  const LitresPerLap: real := 0.45

  /** `calculateFuelTotal`. */
  function FuelTotal(laps: real): (f: real)
    ensures laps >= 0.0 ==> f >= 0.0
  {
    laps * LitresPerLap
  }

  /** Each extra unit of kart weight or of fuel removes one unit of ballast, and a kart
      already over the target gets negative ballast: the result is not clamped. */
  lemma BallastResponds(target: real, weight: real, fuel: real, d: real)
    ensures Ballast(target, weight + d, fuel) == Ballast(target, weight, fuel) - d
    ensures Ballast(target, weight, fuel + d) == Ballast(target, weight, fuel) - d
    ensures weight + fuel > target ==> Ballast(target, weight, fuel) < 0.0
  {
  }

  /** Fuel is zero for no laps and adds up over consecutive stints. */
  lemma FuelIsLinear(a: real, b: real)
    ensures FuelTotal(0.0) == 0.0
    ensures FuelTotal(a + b) == FuelTotal(a) + FuelTotal(b)
  {
  }

  const DefaultWeight: real := 155.0
  const DefaultFuel: real := 5.0
  const DefaultLaps: real := 15.0
  const DefaultTarget: real := 165.0

  /** The page opens on 5 units of ballast and 6.75 litres for the stint. */
  lemma DefaultReadings()
    ensures Ballast(DefaultTarget, DefaultWeight, DefaultFuel) == 5.0
    ensures FuelTotal(DefaultLaps) == 6.75
  {
  }
}
