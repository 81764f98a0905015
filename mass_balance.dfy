/** The mass balance and metrics step: the product fractions and the input
    mass give the three product masses, the CO2 saved and the net profit. */
module MassBalance {
  import opened YieldModel

  /** Kilograms of CO2 counted as saved per kilogram of feedstock. */
  const CO2_PER_KG: real := 1.5
  /** Sale price of oil, per kilogram. */
  const OIL_PRICE: real := 0.5
  /** Sale price of char, per kilogram. */
  const CHAR_PRICE: real := 0.3
  /** Processing cost, per kilogram of feedstock. Gas earns nothing. */
  const PROCESSING_COST: real := 0.1

  /** The figures reported for one simulation run. */
  datatype Outcome = Outcome(
    oilMass: real,
    charMass: real,
    gasMass: real,
    co2Saved: real,
    netProfit: real)

  /** Profit per kilogram of feedstock for a given split. */
  function Margin(y: Yield): real {
    OIL_PRICE * y.oil + CHAR_PRICE * y.biochar - PROCESSING_COST
  }

  /** The products of `mass` kilograms split by `y`, and the derived metrics.
      The mass is not checked; a distribution conserves it exactly, CO2 saved
      depends on the mass alone, and the profit is the mass times the margin. */
  function Compute(y: Yield, mass: real): (r: Outcome)
    ensures IsDistribution(y) ==> r.oilMass + r.charMass + r.gasMass == mass
    ensures r.co2Saved == CO2_PER_KG * mass
    ensures r.netProfit == mass * Margin(y)
  {
    var mOil := mass * y.oil;
    var mChar := mass * y.biochar;
    var mGas := mass * y.gas;
    Outcome(mOil, mChar, mGas, mass * CO2_PER_KG,
            (mOil * OIL_PRICE + mChar * CHAR_PRICE) - mass * PROCESSING_COST)
  }

  /** Every field of an outcome multiplied by `k`. */
  function Scale(o: Outcome, k: real): Outcome {
    Outcome(k * o.oilMass, k * o.charMass, k * o.gasMass, k * o.co2Saved, k * o.netProfit)
  }

  /** Field-wise sum of two outcomes. */
  function Add(a: Outcome, b: Outcome): Outcome {
    Outcome(a.oilMass + b.oilMass, a.charMass + b.charMass, a.gasMass + b.gasMass,
            a.co2Saved + b.co2Saved, a.netProfit + b.netProfit)
  }

  /** One kilogram of feedstock reports the fractions themselves as masses,
      1.5 kg of CO2 and the margin as profit; with `ComputeScales` this gives
      every figure for every mass. */
  lemma ComputeUnit(y: Yield)
    ensures Compute(y, 1.0) == Outcome(y.oil, y.biochar, y.gas, CO2_PER_KG, Margin(y))
  {
  }

  /** Homogeneity: scaling the input mass scales every reported figure. */
  lemma ComputeScales(y: Yield, mass: real, k: real)
    ensures Compute(y, k * mass) == Scale(Compute(y, mass), k)
  {
  }

  /** Additivity: two batches run together report the sum of the two runs. */
  lemma ComputeAdds(y: Yield, m1: real, m2: real)
    ensures Compute(y, m1 + m2) == Add(Compute(y, m1), Compute(y, m2))
  {
  }

  /** For a non-negative mass each product mass lies between zero and the
      input mass. */
  lemma ProductMassesBounded(y: Yield, mass: real)
    requires IsDistribution(y)
    requires 0.0 <= mass
    ensures 0.0 <= Compute(y, mass).oilMass <= mass
    ensures 0.0 <= Compute(y, mass).charMass <= mass
    ensures 0.0 <= Compute(y, mass).gasMass <= mass
  {
    FractionOfMassBounded(y.oil, mass);
    FractionOfMassBounded(y.biochar, mass);
    FractionOfMassBounded(y.gas, mass);
  }

  /** A fraction in [0, 1] of a non-negative mass is at most that mass. */
  lemma FractionOfMassBounded(fraction: real, mass: real)
    requires 0.0 <= fraction <= 1.0 && 0.0 <= mass
    ensures 0.0 <= mass * fraction <= mass
  {
  }

  /** The gas fraction has no effect on the profit. */
  lemma ProfitIgnoresGas(y1: Yield, y2: Yield, mass: real)
    requires y1.oil == y2.oil && y1.biochar == y2.biochar
    ensures Compute(y1, mass).netProfit == Compute(y2, mass).netProfit
  {
  }

  /** The per-kilogram margin of each regime. */
  lemma RegimeMargins()
    ensures Margin(RegimeYield(PlasticBelow450)) == 0.29
    ensures Margin(RegimeYield(PlasticMid)) == 0.33
    ensures Margin(RegimeYield(PlasticAbove600)) == 0.115
    ensures Margin(RegimeYield(BiomassBelow400)) == 0.20
    ensures Margin(RegimeYield(BiomassFrom400)) == 0.26
  {
  }

  /** Every classified split has a margin of at least 0.115 per kilogram. */
  lemma MarginAtLeast(f: Feedstock, t: real)
    ensures Margin(Classify(f, t)) >= 0.115
  {
  }

  /** For a positive mass the net profit is positive in every regime. */
  lemma ProfitPositive(f: Feedstock, t: real, mass: real)
    requires 0.0 < mass
    ensures Compute(Classify(f, t), mass).netProfit >= 0.115 * mass > 0.0
  {
  }
}
