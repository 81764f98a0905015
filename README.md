# Pyrolysis yield and mass-balance model

A Dafny model of the calculation behind the "Start Simulation" button of the
Advanced Pyrolysis Simulator (`app.py`). The calculation has two steps:

- **Yield classification** (module `YieldModel`). A feedstock (plastic waste or
  biomass) and the maximum reactor temperature in degrees Celsius select one
  of five temperature regimes. Plastic has three regimes: below 450, from 450
  to 600 inclusive, and above 600. Biomass has two: below 400, and 400 or
  above. Each regime carries a literal (oil, char, gas) fraction triple.
- **Mass balance and metrics** (module `MassBalance`). The fractions and the
  input mass give the oil, char and gas masses. CO2 saved is 1.5 kg per kg of
  feedstock. Net profit is oil at 0.5 per kg plus char at 0.3 per kg, minus a
  processing cost of 0.1 per kg of feedstock. Gas earns nothing.

Module `Simulation` joins the two steps with the selector-label dispatch and
holds the concrete runs.

All quantities are Dafny `real`s, so the identities hold exactly. These are
the sum-to-one of each triple, mass conservation, linearity in the mass and
the profit formula. The temperature is a `real`. The slider only produces
integers from 300 to 900, but the calculation itself accepts any value.

What is proved:
- The regimes of each feedstock partition the real line. There is no gap and
  no overlap at 400, 450 or 600. Both 450 and 600 fall in the middle plastic
  band.
- Every classified triple is a distribution: each fraction is in [0, 1] and
  they add up to exactly 1.
- The product masses add up to the input mass. Every reported figure is
  homogeneous and additive in the mass. For a non-negative mass, each product
  mass lies between 0 and the input mass.
- The net profit equals the mass times a per-kg margin. The gas fraction does
  not affect it. The margins of the five regimes are 0.29, 0.33, 0.115, 0.20
  and 0.26, so the profit is positive for every positive mass.

The feedstock is chosen by comparing the selector label with
`"Plastic Waste"`. Only that exact label selects plastic. Every other string
falls through to the biomass branch, and nothing rejects an unknown label
(`app.py:61`, `app.py:68`). `Simulation.FeedstockOfChoice` models this
dispatch as written.

## Model

| member | source | states |
|---|---|---|
| `YieldModel.RegimeYield` | app.py:62-72 | each regime's literal triple is a distribution: fractions in [0, 1] summing to exactly 1 |
| `YieldModel.RegimeOf` | app.py:61-72 | the branch chain picks a regime of the given feedstock whose temperature interval contains the temperature |
| `YieldModel.Classify` | app.py:61-72 | the selected fractions form a distribution and equal the triple of every regime that applies to (feedstock, temperature) |
| `YieldModel.RegimesCover` | app.py:62-72 | for each feedstock, every temperature lies in some regime (no gap) |
| `YieldModel.RegimesDisjoint` | app.py:62-72 | for each feedstock, no temperature lies in two regimes (no overlap at 400, 450, 600) |
| `YieldModel.RegimeOfUnique` | app.py:61-72 | a regime applies exactly when it is the one the branch chain picks |
| `YieldModel.PlasticBands` | app.py:61-67 | plastic gives (0.60, 0.30, 0.10) below 450, (0.80, 0.10, 0.10) from 450 to 600 inclusive, (0.40, 0.05, 0.55) above 600 |
| `YieldModel.BiomassBands` | app.py:68-72 | biomass gives (0.30, 0.50, 0.20) below 400 and (0.60, 0.20, 0.20) from 400 up |
| `YieldModel.Breakpoints` | app.py:62-69 | 450 and 600 select the middle plastic band; 400 selects the upper biomass band |
| `MassBalance.Compute` | app.py:75-79 | a distribution conserves the mass exactly; CO2 saved is 1.5 times the mass whatever the split; net profit is the mass times the per-kg margin |
| `MassBalance.ComputeUnit` | app.py:75-79 | one kilogram reports each fraction as its product mass, 1.5 kg of CO2 and the per-kg margin as profit; with `ComputeScales` each product mass is its fraction times the input mass |
| `MassBalance.ComputeScales` | app.py:75-79 | multiplying the input mass by k multiplies all five reported figures by k |
| `MassBalance.ComputeAdds` | app.py:75-79 | the figures for the sum of two masses are the sums of the figures |
| `MassBalance.ProductMassesBounded` | app.py:75-77 | for a distribution and a non-negative mass, each product mass lies between 0 and the input mass |
| `MassBalance.ProfitIgnoresGas` | app.py:79 | two splits that agree on oil and char give the same profit, whatever their gas fraction |
| `MassBalance.RegimeMargins` | app.py:63-79 | the per-kg margins of the five regimes are 0.29, 0.33, 0.115, 0.20 and 0.26 |
| `MassBalance.MarginAtLeast` | app.py:61-79 | every classified split earns at least 0.115 per kg |
| `MassBalance.ProfitPositive` | app.py:61-79 | for a positive mass the net profit is at least 0.115 times the mass, so positive in every regime |
| `Simulation.FeedstockOfChoice` | app.py:61-68 | plastic is selected exactly when the label is "Plastic Waste"; any other string gives biomass |
| `Simulation.Simulate` | app.py:61-79 | a run conserves the mass, saves 1.5 kg CO2 per kg, keeps each product mass within [0, mass] for a non-negative mass, has positive profit for a positive mass, and reports exactly the mass balance of the regime whose temperature interval holds the maximum temperature for the selected feedstock |
| `Simulation.SelectorLabels` | app.py:37 | the two labels the selector offers select plastic and biomass |
| `Simulation.DefaultRun` | app.py:38-79 | plastic at 500 degrees with 100 kg gives oil 80, char 10, gas 10, CO2 150 and profit 33 |
| `Simulation.SampleClassifications` | app.py:61-72 | plastic at 300, 500 and 700 and biomass at 350 give the listed triples |
| `Simulation.NegativeMassNotRejected` | app.py:38-79 | a negative mass is not rejected; it gives negative oil, char and gas masses and a negative profit |

## Left out

- Page setup, CSS, layout columns, containers, the button and the metric display (`app.py:1-58`, `app.py:81-91`, `app.py:119-120`): presentation only.
- The pie and bar charts (`app.py:93-117`): rendering through matplotlib.
- Heating rate, initial temperature, residence time and the efficiency bar (`app.py:39`, `app.py:45`, `app.py:52-54`): collected or shown but never used by the calculation.
- IEEE floating-point rounding and the `:.1f`, `:.0%` and `:.2f` formatting: every quantity is an exact `real`, so results that would be rounded in floating point are exact here.
- Non-finite inputs (NaN, infinities): `real` has none. The code does not check for them either.
- The bounds of the temperature slider (integers 300 to 900): the calculation does not depend on them, so the model takes any real temperature. The mass input (`app.py:38`) has no bounds at all, and the model likewise takes any real mass.
- Repeated calls giving the same result: every member here is a mathematical function, so this holds by construction and needs no lemma.
