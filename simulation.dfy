/** One press of "Start Simulation": the selector label picks the feedstock,
    the yield model picks the split, and the mass balance reports the run. */
module Simulation {
  import opened YieldModel
  import opened MassBalance

  /** The label of the plastic entry of the "Waste Type" selector. */
  const PLASTIC_LABEL: string := "Plastic Waste"
  /** The label of the biomass entry of the "Waste Type" selector. */
  const BIOMASS_LABEL: string := "Biomass / Wood"

  /** Only the exact plastic label selects plastic; every other string,
      the biomass label included, falls through to biomass. */
  function FeedstockOfChoice(choice: string): (f: Feedstock)
    ensures f == Plastic <==> choice == PLASTIC_LABEL
  {
    if choice == PLASTIC_LABEL then Plastic else Biomass
  }

  /** The full calculation for one run: `choice` is the selector label,
      `maxTemp` the maximum temperature in degrees Celsius, `mass` the input
      mass in kilograms, none of them validated. */
  function Simulate(choice: string, maxTemp: real, mass: real): (r: Outcome)
    ensures r.oilMass + r.charMass + r.gasMass == mass
    ensures r.co2Saved == CO2_PER_KG * mass
    ensures 0.0 <= mass ==> 0.0 <= r.oilMass <= mass && 0.0 <= r.charMass <= mass && 0.0 <= r.gasMass <= mass
    ensures 0.0 < mass ==> 0.0 < r.netProfit
    ensures forall g :: Applies(g, FeedstockOfChoice(choice), maxTemp) ==> r == Compute(RegimeYield(g), mass)
  {
    var f := FeedstockOfChoice(choice);
    var y := Classify(f, maxTemp);
    assert 0.0 <= mass ==> 0.0 <= Compute(y, mass).oilMass <= mass && 0.0 <= Compute(y, mass).charMass <= mass
                           && 0.0 <= Compute(y, mass).gasMass <= mass by {
      if 0.0 <= mass { ProductMassesBounded(y, mass); }
    }
    assert 0.0 < mass ==> 0.0 < Compute(y, mass).netProfit by {
      if 0.0 < mass { ProfitPositive(f, maxTemp, mass); }
    }
    Compute(y, mass)
  }

  /** The two labels the selector offers select the two feedstocks. */
  lemma SelectorLabels()
    ensures FeedstockOfChoice(PLASTIC_LABEL) == Plastic
    ensures FeedstockOfChoice(BIOMASS_LABEL) == Biomass
  {
  }

  /** The default run: plastic at 500 degrees with 100 kg. */
  lemma DefaultRun()
    ensures Simulate(PLASTIC_LABEL, 500.0, 100.0) == Outcome(80.0, 10.0, 10.0, 150.0, 33.0)
  {
  }

  /** Sample classifications across the bands. */
  lemma SampleClassifications()
    ensures Classify(Plastic, 300.0) == Yield(0.60, 0.30, 0.10)
    ensures Classify(Plastic, 500.0) == Yield(0.80, 0.10, 0.10)
    ensures Classify(Plastic, 700.0) == Yield(0.40, 0.05, 0.55)
    ensures Classify(Biomass, 350.0) == Yield(0.30, 0.50, 0.20)
  {
  }

  /** A negative mass is not rejected: it yields negative product masses and
      a negative profit. */
  lemma NegativeMassNotRejected(choice: string, maxTemp: real, mass: real)
    requires mass < 0.0
    ensures Simulate(choice, maxTemp, mass).oilMass < 0.0
    ensures Simulate(choice, maxTemp, mass).charMass < 0.0
    ensures Simulate(choice, maxTemp, mass).gasMass < 0.0
    ensures Simulate(choice, maxTemp, mass).netProfit < 0.0
  {
  }
}
