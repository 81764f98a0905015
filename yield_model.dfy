/** The yield estimation step of the pyrolysis simulator: a feedstock and the
    maximum reactor temperature (in degrees Celsius) select one of five fixed
    temperature regimes, and each regime carries a fixed split of the input
    mass into oil, biochar (char) and gas. */
module YieldModel {

  /** The two waste types offered by the "Waste Type" selector. */
  datatype Feedstock = Plastic | Biomass

  /** Mass fractions of the three pyrolysis products. */
  datatype Yield = Yield(oil: real, biochar: real, gas: real)

  /** Each fraction lies in [0, 1] and the three add up to exactly one. */
  predicate IsDistribution(y: Yield) {
    && 0.0 <= y.oil <= 1.0
    && 0.0 <= y.biochar <= 1.0
    && 0.0 <= y.gas <= 1.0
    && y.oil + y.biochar + y.gas == 1.0
  }

  /** The temperature bands of the two step functions. */
  datatype Regime =
    | PlasticBelow450   // plastic, t < 450
    | PlasticMid        // plastic, 450 <= t <= 600 (closed at both ends)
    | PlasticAbove600   // plastic, t > 600
    | BiomassBelow400   // biomass, t < 400
    | BiomassFrom400    // biomass, t >= 400

  function FeedstockOf(g: Regime): Feedstock {
    match g
    case PlasticBelow450 | PlasticMid | PlasticAbove600 => Plastic
    case BiomassBelow400 | BiomassFrom400 => Biomass
  }

  /** The temperature interval a regime stands for, stated interval by
      interval and independently of the order of the branch chain. */
  predicate Covers(g: Regime, t: real) {
    match g
    case PlasticBelow450 => t < 450.0
    case PlasticMid => 450.0 <= t && t <= 600.0
    case PlasticAbove600 => 600.0 < t
    case BiomassBelow400 => t < 400.0
    case BiomassFrom400 => 400.0 <= t
  }

  /** A regime applies to feedstock `f` at temperature `t`. */
  predicate Applies(g: Regime, f: Feedstock, t: real) {
    FeedstockOf(g) == f && Covers(g, t)
  }

  /** The literal (oil, biochar, gas) triple of each regime. */
  function RegimeYield(g: Regime): (y: Yield)
    ensures IsDistribution(y)
  {
    match g
    case PlasticBelow450 => Yield(0.60, 0.30, 0.10)
    case PlasticMid => Yield(0.80, 0.10, 0.10)
    case PlasticAbove600 => Yield(0.40, 0.05, 0.55)
    case BiomassBelow400 => Yield(0.30, 0.50, 0.20)
    case BiomassFrom400 => Yield(0.60, 0.20, 0.20)
  }

  /** The branch chain: for plastic `t < 450`, then `450 <= t <= 600`, else
      the high band; for biomass `t < 400`, else the high band. The regime
      chosen is one of the given feedstock whose interval holds `t`. */
  function RegimeOf(f: Feedstock, t: real): (g: Regime)
    ensures Applies(g, f, t)
  {
    if f == Plastic then
      if t < 450.0 then PlasticBelow450
      else if 450.0 <= t <= 600.0 then PlasticMid
      else PlasticAbove600
    else
      if t < 400.0 then BiomassBelow400
      else BiomassFrom400
  }

  /** The product fractions for feedstock `f` at maximum temperature `t`:
      a distribution, and the triple of the regime whose interval holds `t`. */
  function Classify(f: Feedstock, t: real): (y: Yield)
    ensures IsDistribution(y)
    ensures forall g :: Applies(g, f, t) ==> y == RegimeYield(g)
  {
    RegimeYield(RegimeOf(f, t))
  }

  /** For each feedstock, every temperature lies in at least one regime. */
  lemma RegimesCover(f: Feedstock, t: real)
    ensures exists g :: Applies(g, f, t)
  {
    var g := RegimeOf(f, t);
    assert Applies(g, f, t);
  }

  /** For each feedstock, no temperature lies in two regimes. */
  lemma RegimesDisjoint(f: Feedstock, t: real)
    ensures forall g1, g2 :: Applies(g1, f, t) && Applies(g2, f, t) ==> g1 == g2
  {
  }

  /** The regime picked by the branch chain is the only one that applies. */
  lemma RegimeOfUnique(f: Feedstock, t: real, g: Regime)
    ensures Applies(g, f, t) <==> g == RegimeOf(f, t)
  {
  }

  /** Plastic: the three bands with their triples, both ends of the middle
      band included. */
  lemma PlasticBands(t: real)
    ensures t < 450.0 ==> Classify(Plastic, t) == Yield(0.60, 0.30, 0.10)
    ensures 450.0 <= t <= 600.0 ==> Classify(Plastic, t) == Yield(0.80, 0.10, 0.10)
    ensures 600.0 < t ==> Classify(Plastic, t) == Yield(0.40, 0.05, 0.55)
  {
  }

  /** Biomass: the two bands with their triples, 400 in the upper one. */
  lemma BiomassBands(t: real)
    ensures t < 400.0 ==> Classify(Biomass, t) == Yield(0.30, 0.50, 0.20)
    ensures 400.0 <= t ==> Classify(Biomass, t) == Yield(0.60, 0.20, 0.20)
  {
  }

  /** The breakpoints themselves: 450 and 600 are both in the middle plastic
      band, 400 is in the upper biomass band. */
  lemma Breakpoints()
    ensures RegimeOf(Plastic, 450.0) == PlasticMid
    ensures RegimeOf(Plastic, 600.0) == PlasticMid
    ensures RegimeOf(Biomass, 400.0) == BiomassFrom400
  {
  }
}
