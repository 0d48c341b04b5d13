/** The static tables of utils/constants.py: emission factors, industry
    intensity benchmarks, typical scope shares, science-based reduction
    frameworks and carbon-credit price ranges. Python dictionaries keep their
    insertion order, so each table is a sequence of (key, row) pairs. */
module Constants {
  import opened Common

  /** An emission factor is either one number (tCO2e per unit) or, for
      electricity, a table of numbers by grid region (tCO2e per kWh). */
  datatype Factor = PerUnit(value: real) | ByRegion(regions: seq<(string, real)>)

  const ElectricityByRegion: seq<(string, real)> := [
    ("North America", 0.000429),
    ("Europe", 0.000276),
    ("Asia - China", 0.000623),
    ("Asia - India", 0.000708),
    ("Asia - Japan", 0.000457),
    ("Asia - Other", 0.000536),
    ("South America", 0.000192),
    ("Africa", 0.000639),
    ("Australia & Oceania", 0.000533)
  ]

  const EmissionFactors: seq<(string, Factor)> := [
    // Scope 1
    ("natural_gas", PerUnit(0.00185)),
    ("diesel_stationary", PerUnit(0.00269)),
    ("fuel_oil", PerUnit(0.00276)),
    ("propane", PerUnit(0.00151)),
    ("coal", PerUnit(0.00246)),
    ("gasoline", PerUnit(0.00231)),
    ("diesel_mobile", PerUnit(0.00267)),
    ("jet_fuel", PerUnit(0.00249)),
    ("marine_fuel", PerUnit(0.00276)),
    ("refrigerant_r22", PerUnit(1.810)),
    ("refrigerant_r410a", PerUnit(2.088)),
    // Scope 2
    ("electricity", ByRegion(ElectricityByRegion)),
    ("steam", PerUnit(0.072)),
    ("cooling", PerUnit(0.065)),
    ("heating", PerUnit(0.067)),
    // Scope 3
    ("purchased_goods", PerUnit(0.00033)),
    ("capital_goods", PerUnit(0.00026)),
    ("fuel_energy_related", PerUnit(0.0187)),
    ("upstream_transport", PerUnit(0.00011)),
    ("waste_operations", PerUnit(0.433)),
    ("business_travel", PerUnit(0.00017)),
    ("employee_commuting", PerUnit(0.00015)),
    ("upstream_leased", PerUnit(0.025)),
    ("downstream_transport", PerUnit(0.00011)),
    ("processing_products", PerUnit(0.36)),
    ("use_of_products", PerUnit(0.23)),
    ("end_of_life", PerUnit(0.252)),
    ("downstream_leased", PerUnit(0.023)),
    ("franchises", PerUnit(18.5)),
    ("investments", PerUnit(0.00001))
  ]

  /** Emissions intensity in tCO2e per million USD of revenue. */
  datatype Benchmark = Benchmark(avgIntensity: real, bestPerformer: real, worstPerformer: real)

  const IndustryBenchmarks: seq<(string, Benchmark)> := [
    ("Agriculture", Benchmark(120.0, 60.0, 250.0)),
    ("Automotive", Benchmark(65.0, 25.0, 150.0)),
    ("Aviation", Benchmark(350.0, 180.0, 600.0)),
    ("Chemical", Benchmark(180.0, 90.0, 350.0)),
    ("Construction", Benchmark(75.0, 30.0, 200.0)),
    ("Education", Benchmark(40.0, 15.0, 100.0)),
    ("Energy", Benchmark(250.0, 100.0, 500.0)),
    ("Financial Services", Benchmark(20.0, 5.0, 60.0)),
    ("Food & Beverage", Benchmark(85.0, 35.0, 200.0)),
    ("Healthcare", Benchmark(55.0, 20.0, 120.0)),
    ("Hospitality", Benchmark(70.0, 25.0, 150.0)),
    ("Information Technology", Benchmark(30.0, 10.0, 80.0)),
    ("Manufacturing", Benchmark(100.0, 45.0, 220.0)),
    ("Mining", Benchmark(300.0, 150.0, 600.0)),
    ("Real Estate", Benchmark(60.0, 25.0, 130.0)),
    ("Retail", Benchmark(45.0, 20.0, 110.0)),
    ("Telecommunications", Benchmark(35.0, 15.0, 80.0)),
    ("Transportation", Benchmark(150.0, 70.0, 300.0)),
    ("Utilities", Benchmark(200.0, 90.0, 400.0)),
    ("Other", Benchmark(80.0, 30.0, 200.0))
  ]

  /** Typical share of each scope in an industry's footprint, in percent. */
  datatype ScopeShares = ScopeShares(scope1: real, scope2: real, scope3: real)

  const ScopeDistributions: seq<(string, ScopeShares)> := [
    ("Agriculture", ScopeShares(40.0, 10.0, 50.0)),
    ("Automotive", ScopeShares(15.0, 25.0, 60.0)),
    ("Aviation", ScopeShares(70.0, 5.0, 25.0)),
    ("Chemical", ScopeShares(45.0, 25.0, 30.0)),
    ("Construction", ScopeShares(20.0, 15.0, 65.0)),
    ("Education", ScopeShares(10.0, 45.0, 45.0)),
    ("Energy", ScopeShares(60.0, 5.0, 35.0)),
    ("Financial Services", ScopeShares(5.0, 25.0, 70.0)),
    ("Food & Beverage", ScopeShares(25.0, 20.0, 55.0)),
    ("Healthcare", ScopeShares(15.0, 35.0, 50.0)),
    ("Hospitality", ScopeShares(20.0, 40.0, 40.0)),
    ("Information Technology", ScopeShares(5.0, 30.0, 65.0)),
    ("Manufacturing", ScopeShares(30.0, 25.0, 45.0)),
    ("Mining", ScopeShares(50.0, 15.0, 35.0)),
    ("Real Estate", ScopeShares(10.0, 50.0, 40.0)),
    ("Retail", ScopeShares(10.0, 30.0, 60.0)),
    ("Telecommunications", ScopeShares(5.0, 35.0, 60.0)),
    ("Transportation", ScopeShares(65.0, 10.0, 25.0)),
    ("Utilities", ScopeShares(70.0, 5.0, 25.0)),
    ("Other", ScopeShares(25.0, 25.0, 50.0))
  ]

  /** A science-based framework: percent cut by 2030, percent cut per year,
      and the net-zero year. */
  datatype ReductionTarget = ReductionTarget(by2030: real, annual: real, netZeroYear: int)

  const ReductionTargets: seq<(string, ReductionTarget)> := [
    ("Paris-Aligned (1.5°C)", ReductionTarget(42.0, 4.2, 2050)),
    ("Well Below 2°C", ReductionTarget(35.0, 3.5, 2060)),
    ("2°C", ReductionTarget(25.0, 2.5, 2070))
  ]

  /** Price range of a carbon-credit type, in USD per tCO2e. */
  datatype CreditPrice = CreditPrice(minPrice: real, maxPrice: real, avgPrice: real)

  const CarbonCreditTypes: seq<(string, CreditPrice)> := [
    ("Renewable Energy", CreditPrice(3.0, 15.0, 8.0)),
    ("Forestry & Conservation", CreditPrice(5.0, 25.0, 12.0)),
    ("Methane Capture", CreditPrice(6.0, 20.0, 10.0)),
    ("Energy Efficiency", CreditPrice(4.0, 18.0, 9.0)),
    ("Direct Air Capture", CreditPrice(50.0, 500.0, 100.0))
  ]

  /** Every row of the scope-distribution table adds up to 100 percent. */
  lemma ScopeSharesSumTo100()
    ensures forall i :: 0 <= i < |ScopeDistributions| ==>
      ScopeDistributions[i].1.scope1 + ScopeDistributions[i].1.scope2 + ScopeDistributions[i].1.scope3 == 100.0
  {
  }

  /** In every benchmark row the best performer beats the average, which beats the worst. */
  lemma BenchmarksOrdered()
    ensures forall i :: 0 <= i < |IndustryBenchmarks| ==>
      IndustryBenchmarks[i].1.bestPerformer < IndustryBenchmarks[i].1.avgIntensity < IndustryBenchmarks[i].1.worstPerformer
  {
  }

  /** Every credit type's average price lies within its price range. */
  lemma CreditPricesOrdered()
    ensures forall i :: 0 <= i < |CarbonCreditTypes| ==>
      CarbonCreditTypes[i].1.minPrice <= CarbonCreditTypes[i].1.avgPrice <= CarbonCreditTypes[i].1.maxPrice
  {
  }

  /** Each framework's yearly cut is a tenth of its 2030 cut, and a framework
      with a smaller 2030 cut reaches net zero later. */
  lemma ReductionTargetsConsistent()
    ensures forall i :: 0 <= i < |ReductionTargets| ==>
      ReductionTargets[i].1.annual == ReductionTargets[i].1.by2030 / 10.0
    ensures forall i, j :: 0 <= i < |ReductionTargets| && 0 <= j < |ReductionTargets| ==>
      (ReductionTargets[i].1.by2030 > ReductionTargets[j].1.by2030 ==>
       ReductionTargets[i].1.netZeroYear < ReductionTargets[j].1.netZeroYear)
  {
  }

  /** Nine grid regions, all with a positive factor, including the North
      America fallback of 0.000429. */
  lemma ElectricityTableShape()
    ensures |ElectricityByRegion| == 9 && DistinctKeys(ElectricityByRegion)
    ensures forall i :: 0 <= i < |ElectricityByRegion| ==> ElectricityByRegion[i].1 > 0.0
    ensures Lookup(ElectricityByRegion, "North America") == Some(0.000429)
  {
  }

  /** The benchmark and scope-distribution tables cover the same 20 industries,
      in the same order, including the "Other" fallback row. */
  lemma IndustryTablesAgree()
    ensures |IndustryBenchmarks| == |ScopeDistributions| == 20
    ensures forall i :: 0 <= i < 20 ==> IndustryBenchmarks[i].0 == ScopeDistributions[i].0
    ensures HasKey(IndustryBenchmarks, "Other") && HasKey(ScopeDistributions, "Other")
  {
    assert IndustryBenchmarks[19].0 == ScopeDistributions[19].0 == "Other";
  }
}
