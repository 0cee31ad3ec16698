/**
 * Carbon-equivalent derivation shared by every record the dashboard
 * synthesizes: monthly history, monthly predictions and buildings.
 * Arithmetic is over exact rationals; Math.round is half-up rounding.
 */
module Emissions {

  /** kg of CO2 per kWh of electricity. */
  const ElectricityFactor: real := 0.785
  /** kg of CO2 per ton of water. */
  const WaterFactor: real := 0.25
  /** kg of CO2 per cubic metre of natural gas. */
  const GasFactor: real := 2.1

  /** Math.round: the nearest integer, a half rounded towards +infinity. */
  function Round(x: real): (r: int)
    ensures r as real - 0.5 <= x < r as real + 0.5
  {
    (x + 0.5).Floor
  }

  lemma RoundMonotone(x: real, y: real)
    requires x <= y
    ensures Round(x) <= Round(y)
  {
  }

  /** A value between two integers rounds to an integer between them. */
  lemma RoundBetween(x: real, lo: int, hi: int)
    requires lo as real <= x <= hi as real
    ensures lo <= Round(x) <= hi
  {
  }

  /**
   * The stream of Math.random() draws a generator consumes, injected as
   * data: exactly n values, each in [0, 1).
   */
  predicate IsRandomStream(draws: seq<real>, n: nat) {
    |draws| == n && forall k :: 0 <= k < n ==> 0.0 <= draws[k] < 1.0
  }

  /** Whole tonnes of CO2 for `amount` units consumed at `factor` kg per unit. */
  function Tonnes(amount: int, factor: real): (t: int)
    ensures t as real - 0.5 <= amount as real * factor / 1000.0 < t as real + 0.5
  {
    Round(amount as real * factor / 1000.0)
  }

  lemma TonnesMonotone(a: int, b: int, factor: real)
    requires a <= b && 0.0 <= factor
    ensures Tonnes(a, factor) <= Tonnes(b, factor)
  {
    assert a as real * factor <= b as real * factor by {
      assert (b - a) as real * factor >= 0.0;
    }
    RoundMonotone(a as real * factor / 1000.0, b as real * factor / 1000.0);
  }

  /** The four carbon fields every record carries, in tonnes. */
  datatype Carbon = Carbon(electricity: int, water: int, gas: int, total: int)

  /** Stand-in for the carbon fields before they are assigned. */
  const Unset := Carbon(0, 0, 0, 0)

  /**
   * The derivation invariant of every record: each carbon field is the
   * rounded tonnage of its raw consumption figure, and the total is the
   * sum of the three rounded figures.
   */
  predicate IsDerived(electricity: int, water: int, gas: int, c: Carbon) {
    && c.electricity == Tonnes(electricity, ElectricityFactor)
    && c.water == Tonnes(water, WaterFactor)
    && c.gas == Tonnes(gas, GasFactor)
    && c.total == c.electricity + c.water + c.gas
  }

  /** The carbon fields for raw electricity, water and gas figures. */
  function Derive(electricity: int, water: int, gas: int): (c: Carbon)
    ensures IsDerived(electricity, water, gas, c)
    ensures forall d :: IsDerived(electricity, water, gas, d) ==> d == c
  {
    var e := Tonnes(electricity, ElectricityFactor);
    var w := Tonnes(water, WaterFactor);
    var g := Tonnes(gas, GasFactor);
    Carbon(e, w, g, e + w + g)
  }

  /** Non-negative consumption yields non-negative carbon figures. */
  lemma DeriveNonNegative(electricity: int, water: int, gas: int)
    requires 0 <= electricity && 0 <= water && 0 <= gas
    ensures var c := Derive(electricity, water, gas);
      0 <= c.electricity && 0 <= c.water && 0 <= c.gas && 0 <= c.total
  {
    TonnesMonotone(0, electricity, ElectricityFactor);
    TonnesMonotone(0, water, WaterFactor);
    TonnesMonotone(0, gas, GasFactor);
  }

  /** More consumption of every kind never yields less carbon. */
  lemma DeriveMonotone(e1: int, w1: int, g1: int, e2: int, w2: int, g2: int)
    requires e1 <= e2 && w1 <= w2 && g1 <= g2
    ensures Derive(e1, w1, g1).total <= Derive(e2, w2, g2).total
  {
    TonnesMonotone(e1, e2, ElectricityFactor);
    TonnesMonotone(w1, w2, WaterFactor);
    TonnesMonotone(g1, g2, GasFactor);
  }
}
