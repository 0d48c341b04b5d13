/** utils/calculations.py: the emission factor table and `calculate_emissions`,
    which turns three category-to-quantity dictionaries into per-scope subtotals,
    a grand total and labelled per-scope breakdowns (scopes as in chapter 4 of
    the GHG Protocol Corporate Standard; the Scope 3 keys follow the 15
    categories of chapter 5 of the GHG Protocol Scope 3 Standard).

    The source is a run of `if key in data:` blocks, each adding one term to a
    running subtotal and one labelled entry to a breakdown dictionary. Each
    block is a `Rule`; a scope's blocks, in source order, form a `Checks`
    list, and `Terms` is the breakdown the blocks build. The methods replay
    the blocks one by one and are proved to build exactly `Terms`. */
module Calculations {
  import opened Common
  import Constants

  /** calculations.py keeps its own copy of the factor table. */
  const ElectricityByRegion: seq<(string, real)> := [
    ("North America", 0.000429),
    ("Europe", 0.000276),
    ("Asia - China", 0.000623),
    ("Asia - India", 0.000708),
    ("Asia - Japan", 0.000457),
    ("Asia - Other", 0.000536),
    ("South America", 0.000192),
    ("Africa", 0.000639),
    ("Australia & Oceania", 0.000533)
  ]

  const EmissionFactors: seq<(string, Constants.Factor)> := [
    ("natural_gas", Constants.PerUnit(0.00185)),
    ("diesel_stationary", Constants.PerUnit(0.00269)),
    ("fuel_oil", Constants.PerUnit(0.00276)),
    ("propane", Constants.PerUnit(0.00151)),
    ("coal", Constants.PerUnit(0.00246)),
    ("gasoline", Constants.PerUnit(0.00231)),
    ("diesel_mobile", Constants.PerUnit(0.00267)),
    ("jet_fuel", Constants.PerUnit(0.00249)),
    ("marine_fuel", Constants.PerUnit(0.00276)),
    ("refrigerant_r22", Constants.PerUnit(1.810)),
    ("refrigerant_r410a", Constants.PerUnit(2.088)),
    ("electricity", Constants.ByRegion(ElectricityByRegion)),
    ("steam", Constants.PerUnit(0.072)),
    ("cooling", Constants.PerUnit(0.065)),
    ("heating", Constants.PerUnit(0.067)),
    ("purchased_goods", Constants.PerUnit(0.00033)),
    ("capital_goods", Constants.PerUnit(0.00026)),
    ("fuel_energy_related", Constants.PerUnit(0.0187)),
    ("upstream_transport", Constants.PerUnit(0.00011)),
    ("waste_operations", Constants.PerUnit(0.433)),
    ("business_travel", Constants.PerUnit(0.00017)),
    ("employee_commuting", Constants.PerUnit(0.00015)),
    ("upstream_leased", Constants.PerUnit(0.025)),
    ("downstream_transport", Constants.PerUnit(0.00011)),
    ("processing_products", Constants.PerUnit(0.36)),
    ("use_of_products", Constants.PerUnit(0.23)),
    ("end_of_life", Constants.PerUnit(0.252)),
    ("downstream_leased", Constants.PerUnit(0.023)),
    ("franchises", Constants.PerUnit(18.5)),
    ("investments", Constants.PerUnit(0.00001))
  ]

  /** The North America factor, used for unknown regions and for every
      market-based calculation. */
  const DefaultElectricityFactor: real := 0.000429

  /** A breakdown entry: label and tCO2e. */
  type Entry = (string, real)

  /** One `if key in data:` block. */
  datatype Rule =
      /** quantity × factor, the factor being EMISSION_FACTORS[factorName] */
    | Scaled(key: string, caption: string, factorName: string, factor: real)
      /** a quantity already in tCO2e, added unmultiplied */
    | Direct(key: string, caption: string)
      /** units × factor × lifetime; needs both keys, the factor being EMISSION_FACTORS[key] */
    | UsePhase(key: string, lifetimeKey: string, caption: string, factor: real)

  /** The blocks of one scope, in source order. */
  datatype Checks = Done | Check(rule: Rule, next: Checks)

  predicate Applies(r: Rule, data: map<string, real>) {
    r.key in data && (r.UsePhase? ==> r.lifetimeKey in data)
  }

  function Contribution(r: Rule, data: map<string, real>): real
    requires Applies(r, data)
  {
    match r
    case Scaled(k, _, _, f) => data[k] * f
    case Direct(k, _) => data[k]
    case UsePhase(k, l, _, f) => data[k] * f * data[l]
  }

  /** What one block adds to the breakdown. */
  function Piece(r: Rule, data: map<string, real>): seq<Entry> {
    if Applies(r, data) then [(r.caption, Contribution(r, data))] else []
  }

  /** The breakdown dictionary a run of blocks builds, before filtering. */
  function Terms(checks: Checks, data: map<string, real>): seq<Entry> {
    match checks
    case Done => []
    case Check(r, rest) => Piece(r, data) + Terms(rest, data)
  }

  function Sum(entries: seq<Entry>): real {
    if entries == [] then 0.0 else entries[0].1 + Sum(entries[1..])
  }

  predicate Member(r: Rule, checks: Checks) {
    checks.Check? && (checks.rule == r || Member(r, checks.next))
  }

  predicate CaptionUnused(c: string, checks: Checks) {
    checks.Done? || (checks.rule.caption != c && CaptionUnused(c, checks.next))
  }

  /** No two blocks write the same breakdown label. */
  predicate DistinctCaptions(checks: Checks) {
    checks.Done? || (CaptionUnused(checks.rule.caption, checks.next) && DistinctCaptions(checks.next))
  }

  // ---------------------------------------------------------------------------
  // The blocks of calculate_emissions

  /** Scope 1 (direct emissions), calculations.py lines 81-146. */
  const Scope1Checks: Checks :=
    // Stationary combustion
    Check(Scaled("natural_gas", "Natural Gas", "natural_gas", 0.00185),
    Check(Scaled("diesel_stationary", "Stationary Diesel", "diesel_stationary", 0.00269),
    Check(Scaled("fuel_oil", "Fuel Oil", "fuel_oil", 0.00276),
    Check(Scaled("propane", "Propane", "propane", 0.00151),
    Check(Scaled("coal", "Coal", "coal", 0.00246),
    // Mobile combustion
    Check(Scaled("gasoline", "Gasoline", "gasoline", 0.00231),
    Check(Scaled("diesel_mobile", "Mobile Diesel", "diesel_mobile", 0.00267),
    Check(Scaled("jet_fuel", "Jet Fuel", "jet_fuel", 0.00249),
    Check(Scaled("marine_fuel", "Marine Fuel", "marine_fuel", 0.00276),
    // Refrigerants and process emissions
    Check(Scaled("refrigerant_r22", "R-22 Refrigerant", "refrigerant_r22", 1.810),
    Check(Scaled("refrigerant_r410a", "R-410A Refrigerant", "refrigerant_r410a", 2.088),
    Check(Direct("process_emissions", "Process Emissions"),
    Check(Direct("other_direct", "Other Direct"),
    Done)))))))))))))

  /** Scope 2 after purchased electricity, calculations.py lines 171-184. */
  const Scope2Checks: Checks :=
    Check(Scaled("purchased_steam", "Purchased Steam", "steam", 0.072),
    Check(Scaled("purchased_cooling", "Purchased Cooling", "cooling", 0.065),
    Check(Scaled("purchased_heating", "Purchased Heating", "heating", 0.067),
    Done)))

  /** Scope 3 (the 15 value-chain categories), calculations.py lines 191-269. */
  const Scope3Checks: Checks :=
    // Upstream categories
    Check(Scaled("purchased_goods", "Purchased Goods & Services", "purchased_goods", 0.00033),
    Check(Scaled("capital_goods", "Capital Goods", "capital_goods", 0.00026),
    Check(Scaled("fuel_energy_related", "Fuel & Energy-Related", "fuel_energy_related", 0.0187),
    Check(Scaled("upstream_transport", "Upstream Transportation", "upstream_transport", 0.00011),
    Check(Scaled("waste_operations", "Waste in Operations", "waste_operations", 0.433),
    Check(Scaled("business_travel", "Business Travel", "business_travel", 0.00017),
    Check(Scaled("employee_commuting", "Employee Commuting", "employee_commuting", 0.00015),
    Check(Scaled("upstream_leased", "Upstream Leased Assets", "upstream_leased", 0.025),
    // Downstream categories
    Check(Scaled("downstream_transport", "Downstream Transportation", "downstream_transport", 0.00011),
    Check(Scaled("processing_products", "Processing of Sold Products", "processing_products", 0.36),
    Check(UsePhase("use_of_products", "product_avg_lifetime", "Use of Sold Products", 0.23),
    Check(Scaled("end_of_life", "End-of-Life Treatment", "end_of_life", 0.252),
    Check(Scaled("downstream_leased", "Downstream Leased Assets", "downstream_leased", 0.023),
    Check(Scaled("franchises", "Franchises", "franchises", 18.5),
    Check(Scaled("investments", "Investments", "investments", 0.00001),
    Done)))))))))))))))

  // ---------------------------------------------------------------------------
  // Scope 2 electricity

  /** The scope 2 dictionary: quantities plus the electricity settings. */
  datatype Scope2Data = Scope2Data(
    quantities: map<string, real>,
    calculationMethod: Option<string>,
    gridRegion: Option<string>,
    hasRenewablePpa: Option<bool>,
    renewablePercentage: Option<real>)

  /** `EMISSION_FACTORS['electricity'].get(region, <North America>)` */
  function RegionFactor(region: string): real {
    match Lookup(ElectricityByRegion, region)
    case Some(f) => f
    case None => DefaultElectricityFactor
  }

  predicate LocationBased(s2: Scope2Data) {
    s2.calculationMethod == Some("Location-based") && s2.gridRegion.Some?
  }

  /** The renewable share applied in the market-based branch: the given
      percentage (default 0) when a renewable PPA is declared, else 0. */
  function RenewableShare(s2: Scope2Data): real {
    if s2.hasRenewablePpa == Some(true) then
      match s2.renewablePercentage
      case Some(p) => p
      case None => 0.0
    else 0.0
  }

  /** The purchased electricity block: location-based with a grid region
      charges that region's factor, every other case the North America
      factor on the share not covered by a renewable PPA. The figure is never
      negative for a non-negative consumption and a share of at most 100%. */
  function ElectricityEmissions(s2: Scope2Data): (e: real)
    requires "purchased_electricity" in s2.quantities
    ensures s2.quantities["purchased_electricity"] >= 0.0 && RenewableShare(s2) <= 100.0 ==> e >= 0.0
  {
    var kWh := s2.quantities["purchased_electricity"];
    if LocationBased(s2) then
      RegionFactorPositive(s2.gridRegion.value);
      kWh * RegionFactor(s2.gridRegion.value)
    else
      assert RenewableShare(s2) <= 100.0 ==> 1.0 - RenewableShare(s2) / 100.0 >= 0.0;
      kWh * (1.0 - RenewableShare(s2) / 100.0) * DefaultElectricityFactor
  }

  function ElectricityPiece(s2: Scope2Data): seq<Entry> {
    if "purchased_electricity" in s2.quantities then [("Purchased Electricity", ElectricityEmissions(s2))]
    else []
  }

  // ---------------------------------------------------------------------------
  // The breakdowns before filtering, and the result

  function Scope1Terms(s1: map<string, real>): seq<Entry> {
    Terms(Scope1Checks, s1)
  }

  function Scope2Terms(s2: Scope2Data): seq<Entry> {
    ElectricityPiece(s2) + Terms(Scope2Checks, s2.quantities)
  }

  function Scope3Terms(s3: map<string, real>): seq<Entry> {
    Terms(Scope3Checks, s3)
  }

  /** The breakdown comprehension: entries with a value above zero, in order. */
  function Positive(entries: seq<Entry>): (kept: seq<Entry>)
    ensures forall e :: e in kept <==> e in entries && e.1 > 0.0
    ensures |kept| <= |entries|
  {
    if entries == [] then []
    else if entries[0].1 > 0.0 then [entries[0]] + Positive(entries[1..])
    else Positive(entries[1..])
  }

  datatype Results = Results(
    scope1Total: real, scope2Total: real, scope3Total: real, total: real,
    scope1Breakdown: seq<Entry>, scope2Breakdown: seq<Entry>, scope3Breakdown: seq<Entry>)

  // ---------------------------------------------------------------------------
  // The imperative model

  /** One `if key in data:` block: add the term to the subtotal and the
      labelled entry to the breakdown. `rest` is the list of blocks still to
      run, headed by this one. */
  method Accumulate(rule: Rule, data: map<string, real>, ghost rest: Checks, subtotal: real, breakdown: seq<Entry>)
    returns (subtotal': real, breakdown': seq<Entry>)
    requires rest.Check? && rest.rule == rule
    requires subtotal == Sum(breakdown)
    ensures breakdown' + Terms(rest.next, data) == breakdown + Terms(rest, data)
    ensures subtotal' == Sum(breakdown')
  {
    SumConcat(breakdown, Piece(rule, data));
    subtotal', breakdown' := subtotal, breakdown;
    if Applies(rule, data) {
      var emissions := Contribution(rule, data);
      subtotal' := subtotal + emissions;
      breakdown' := breakdown + [(rule.caption, emissions)];
    } else {
      assert breakdown' == breakdown + Piece(rule, data);
    }
  }

  method ComputeScope1(s1: map<string, real>) returns (subtotal: real, breakdown: seq<Entry>)
    ensures breakdown == Scope1Terms(s1) && subtotal == Sum(breakdown)
  {
    subtotal, breakdown := 0.0, [];
    ghost var rest := Scope1Checks;
    // Stationary combustion
    subtotal, breakdown := Accumulate(Scaled("natural_gas", "Natural Gas", "natural_gas", 0.00185), s1, rest, subtotal, breakdown); rest := rest.next;
    subtotal, breakdown := Accumulate(Scaled("diesel_stationary", "Stationary Diesel", "diesel_stationary", 0.00269), s1, rest, subtotal, breakdown); rest := rest.next;
    subtotal, breakdown := Accumulate(Scaled("fuel_oil", "Fuel Oil", "fuel_oil", 0.00276), s1, rest, subtotal, breakdown); rest := rest.next;
    subtotal, breakdown := Accumulate(Scaled("propane", "Propane", "propane", 0.00151), s1, rest, subtotal, breakdown); rest := rest.next;
    subtotal, breakdown := Accumulate(Scaled("coal", "Coal", "coal", 0.00246), s1, rest, subtotal, breakdown); rest := rest.next;
    // Mobile combustion
    subtotal, breakdown := Accumulate(Scaled("gasoline", "Gasoline", "gasoline", 0.00231), s1, rest, subtotal, breakdown); rest := rest.next;
    subtotal, breakdown := Accumulate(Scaled("diesel_mobile", "Mobile Diesel", "diesel_mobile", 0.00267), s1, rest, subtotal, breakdown); rest := rest.next;
    subtotal, breakdown := Accumulate(Scaled("jet_fuel", "Jet Fuel", "jet_fuel", 0.00249), s1, rest, subtotal, breakdown); rest := rest.next;
    subtotal, breakdown := Accumulate(Scaled("marine_fuel", "Marine Fuel", "marine_fuel", 0.00276), s1, rest, subtotal, breakdown); rest := rest.next;
    // Refrigerants and process emissions
    subtotal, breakdown := Accumulate(Scaled("refrigerant_r22", "R-22 Refrigerant", "refrigerant_r22", 1.810), s1, rest, subtotal, breakdown); rest := rest.next;
    subtotal, breakdown := Accumulate(Scaled("refrigerant_r410a", "R-410A Refrigerant", "refrigerant_r410a", 2.088), s1, rest, subtotal, breakdown); rest := rest.next;
    subtotal, breakdown := Accumulate(Direct("process_emissions", "Process Emissions"), s1, rest, subtotal, breakdown); rest := rest.next;
    subtotal, breakdown := Accumulate(Direct("other_direct", "Other Direct"), s1, rest, subtotal, breakdown); rest := rest.next;
    assert breakdown + [] == breakdown;
  }

  method ComputeScope2(s2: Scope2Data) returns (subtotal: real, breakdown: seq<Entry>)
    ensures breakdown == Scope2Terms(s2) && subtotal == Sum(breakdown)
  {
    subtotal, breakdown := 0.0, [];
    if "purchased_electricity" in s2.quantities {
      var emissions: real;
      if s2.calculationMethod == Some("Location-based") && s2.gridRegion.Some? {
        var factor := RegionFactor(s2.gridRegion.value);
        emissions := s2.quantities["purchased_electricity"] * factor;
        assert emissions == ElectricityEmissions(s2);
      } else {
        // Market-based
        var factor := DefaultElectricityFactor;
        var ppa := if s2.hasRenewablePpa.Some? then s2.hasRenewablePpa.value else false;
        var percentage := if ppa then (if s2.renewablePercentage.Some? then s2.renewablePercentage.value else 0.0) else 0.0;
        var conventional := s2.quantities["purchased_electricity"] * (1.0 - percentage / 100.0);
        emissions := conventional * factor;
        assert percentage == RenewableShare(s2);
        assert emissions == ElectricityEmissions(s2);
      }
      subtotal := subtotal + emissions;
      breakdown := breakdown + [("Purchased Electricity", emissions)];
    }
    assert breakdown == ElectricityPiece(s2) && subtotal == Sum(breakdown);
    ghost var rest := Scope2Checks;
    subtotal, breakdown := Accumulate(Scaled("purchased_steam", "Purchased Steam", "steam", 0.072), s2.quantities, rest, subtotal, breakdown); rest := rest.next;
    subtotal, breakdown := Accumulate(Scaled("purchased_cooling", "Purchased Cooling", "cooling", 0.065), s2.quantities, rest, subtotal, breakdown); rest := rest.next;
    subtotal, breakdown := Accumulate(Scaled("purchased_heating", "Purchased Heating", "heating", 0.067), s2.quantities, rest, subtotal, breakdown); rest := rest.next;
    assert breakdown + [] == breakdown;
  }

  method ComputeScope3(s3: map<string, real>) returns (subtotal: real, breakdown: seq<Entry>)
    ensures breakdown == Scope3Terms(s3) && subtotal == Sum(breakdown)
  {
    subtotal, breakdown := 0.0, [];
    ghost var rest := Scope3Checks;
    // Upstream categories
    subtotal, breakdown := Accumulate(Scaled("purchased_goods", "Purchased Goods & Services", "purchased_goods", 0.00033), s3, rest, subtotal, breakdown); rest := rest.next;
    subtotal, breakdown := Accumulate(Scaled("capital_goods", "Capital Goods", "capital_goods", 0.00026), s3, rest, subtotal, breakdown); rest := rest.next;
    subtotal, breakdown := Accumulate(Scaled("fuel_energy_related", "Fuel & Energy-Related", "fuel_energy_related", 0.0187), s3, rest, subtotal, breakdown); rest := rest.next;
    subtotal, breakdown := Accumulate(Scaled("upstream_transport", "Upstream Transportation", "upstream_transport", 0.00011), s3, rest, subtotal, breakdown); rest := rest.next;
    subtotal, breakdown := Accumulate(Scaled("waste_operations", "Waste in Operations", "waste_operations", 0.433), s3, rest, subtotal, breakdown); rest := rest.next;
    subtotal, breakdown := Accumulate(Scaled("business_travel", "Business Travel", "business_travel", 0.00017), s3, rest, subtotal, breakdown); rest := rest.next;
    subtotal, breakdown := Accumulate(Scaled("employee_commuting", "Employee Commuting", "employee_commuting", 0.00015), s3, rest, subtotal, breakdown); rest := rest.next;
    subtotal, breakdown := Accumulate(Scaled("upstream_leased", "Upstream Leased Assets", "upstream_leased", 0.025), s3, rest, subtotal, breakdown); rest := rest.next;
    // Downstream categories
    subtotal, breakdown := Accumulate(Scaled("downstream_transport", "Downstream Transportation", "downstream_transport", 0.00011), s3, rest, subtotal, breakdown); rest := rest.next;
    subtotal, breakdown := Accumulate(Scaled("processing_products", "Processing of Sold Products", "processing_products", 0.36), s3, rest, subtotal, breakdown); rest := rest.next;
    subtotal, breakdown := Accumulate(UsePhase("use_of_products", "product_avg_lifetime", "Use of Sold Products", 0.23), s3, rest, subtotal, breakdown); rest := rest.next;
    subtotal, breakdown := Accumulate(Scaled("end_of_life", "End-of-Life Treatment", "end_of_life", 0.252), s3, rest, subtotal, breakdown); rest := rest.next;
    subtotal, breakdown := Accumulate(Scaled("downstream_leased", "Downstream Leased Assets", "downstream_leased", 0.023), s3, rest, subtotal, breakdown); rest := rest.next;
    subtotal, breakdown := Accumulate(Scaled("franchises", "Franchises", "franchises", 18.5), s3, rest, subtotal, breakdown); rest := rest.next;
    subtotal, breakdown := Accumulate(Scaled("investments", "Investments", "investments", 0.00001), s3, rest, subtotal, breakdown); rest := rest.next;
    assert breakdown + [] == breakdown;
  }

  /** `calculate_emissions(scope1_data, scope2_data, scope3_data)` */
  method CalculateEmissions(s1: map<string, real>, s2: Scope2Data, s3: map<string, real>) returns (r: Results)
    ensures r.scope1Total == Sum(Scope1Terms(s1))
    ensures r.scope2Total == Sum(Scope2Terms(s2))
    ensures r.scope3Total == Sum(Scope3Terms(s3))
    ensures r.total == r.scope1Total + r.scope2Total + r.scope3Total
    ensures r.scope1Breakdown == Positive(Scope1Terms(s1))
    ensures r.scope2Breakdown == Positive(Scope2Terms(s2))
    ensures r.scope3Breakdown == Positive(Scope3Terms(s3))
  {
    var scope1, breakdown1 := ComputeScope1(s1);
    var scope2, breakdown2 := ComputeScope2(s2);
    var scope3, breakdown3 := ComputeScope3(s3);
    r := Results(scope1, scope2, scope3, scope1 + scope2 + scope3,
                 Positive(breakdown1), Positive(breakdown2), Positive(breakdown3));
  }

  // ---------------------------------------------------------------------------
  // Properties of the blocks

  lemma {:induction false} SumConcat(s: seq<Entry>, t: seq<Entry>)
    ensures Sum(s + t) == Sum(s) + Sum(t)
  {
    if s == [] {
      assert s + t == t;
    } else {
      assert (s + t)[1..] == s[1..] + t;
      SumConcat(s[1..], t);
    }
  }

  lemma {:induction false} UnusedCaptionAbsent(c: string, checks: Checks, data: map<string, real>)
    requires CaptionUnused(c, checks)
    ensures forall e :: e in Terms(checks, data) ==> e.0 != c
  {
    if checks.Check? {
      UnusedCaptionAbsent(c, checks.next, data);
    }
  }

  lemma {:induction false} UnusedCaptionNotMember(c: string, r: Rule, checks: Checks)
    requires CaptionUnused(c, checks) && Member(r, checks)
    ensures r.caption != c
  {
    if checks.rule != r {
      UnusedCaptionNotMember(c, r, checks.next);
    }
  }

  /** A block's label appears in the breakdown exactly when the block's keys
      are present, and then with that block's contribution. */
  lemma {:induction false} CaptionEntry(r: Rule, checks: Checks, data: map<string, real>, v: real)
    requires Member(r, checks) && DistinctCaptions(checks)
    ensures (r.caption, v) in Terms(checks, data) <==> Applies(r, data) && v == Contribution(r, data)
  {
    if checks.rule == r {
      UnusedCaptionAbsent(r.caption, checks.next, data);
    } else {
      UnusedCaptionNotMember(checks.rule.caption, r, checks.next);
      CaptionEntry(r, checks.next, data, v);
    }
  }

  predicate FactorsNonNegative(checks: Checks) {
    checks.Done? || ((!checks.rule.Direct? ==> checks.rule.factor >= 0.0) && FactorsNonNegative(checks.next))
  }

  predicate NonNegative(data: map<string, real>) {
    forall k :: k in data ==> data[k] >= 0.0
  }

  lemma {:induction false} TermsNonNegative(checks: Checks, data: map<string, real>)
    requires FactorsNonNegative(checks) && NonNegative(data)
    ensures forall e :: e in Terms(checks, data) ==> e.1 >= 0.0
  {
    if checks.Check? {
      TermsNonNegative(checks.next, data);
      var r := checks.rule;
      if Applies(r, data) {
        match r
        case Scaled(k, _, _, f) => assert data[k] * f >= 0.0;
        case Direct(k, _) =>
        case UsePhase(k, l, _, f) => assert data[k] * f >= 0.0; assert data[k] * f * data[l] >= 0.0;
      }
    }
  }

  /** The tables of blocks: labels are distinct and factors non-negative. */
  lemma Scope1CaptionsDistinct()
    ensures DistinctCaptions(Scope1Checks)
  {
  }

  lemma Scope1FactorsNonNegative()
    ensures FactorsNonNegative(Scope1Checks)
  {
  }

  lemma Scope2CaptionsDistinct()
    ensures DistinctCaptions(Scope2Checks)
    ensures CaptionUnused("Purchased Electricity", Scope2Checks)
  {
  }

  lemma Scope2FactorsNonNegative()
    ensures FactorsNonNegative(Scope2Checks)
  {
  }

  lemma Scope3CaptionsDistinct()
    ensures DistinctCaptions(Scope3Checks)
  {
  }

  lemma Scope3FactorsNonNegative()
    ensures FactorsNonNegative(Scope3Checks)
  {
  }

  /** A block's factor is the table's entry for its factor name (for the
      use-phase block, for its own key). */
  predicate FromFactorTable(r: Rule) {
    match r
    case Scaled(_, _, name, f) => Lookup(EmissionFactors, name) == Some(Constants.PerUnit(f))
    case Direct(_, _) => true
    case UsePhase(k, _, _, f) => Lookup(EmissionFactors, k) == Some(Constants.PerUnit(f))
  }

  predicate FactorsFromTable(checks: Checks) {
    checks.Done? || (FromFactorTable(checks.rule) && FactorsFromTable(checks.next))
  }

  /** The name a block looks its factor up under. */
  function FactorName(r: Rule): string {
    if r.UsePhase? then r.key else if r.Scaled? then r.factorName else ""
  }

  /** No two rows of the factor table share a name. */
  lemma FactorNamesDistinct()
    ensures DistinctKeys(EmissionFactors)
  {
    FactorNamesDistinctFirst();
    FactorNamesDistinctMiddle();
    FactorNamesDistinctLast();
  }

  lemma FactorNamesDistinctFirst()
    ensures forall i, j :: 0 <= i < 10 && i < j < |EmissionFactors| ==> EmissionFactors[i].0 != EmissionFactors[j].0
  {
  }

  lemma FactorNamesDistinctMiddle()
    ensures forall i, j :: 10 <= i < 20 && i < j < |EmissionFactors| ==> EmissionFactors[i].0 != EmissionFactors[j].0
  {
  }

  lemma FactorNamesDistinctLast()
    ensures forall i, j :: 20 <= i < j < |EmissionFactors| ==> EmissionFactors[i].0 != EmissionFactors[j].0
  {
  }

  /** A block whose name and factor are the table's row i takes its factor
      from the table. */
  lemma FactorOfEntry(r: Rule, i: nat)
    requires r.Scaled? || r.UsePhase?
    requires i < |EmissionFactors| && EmissionFactors[i] == (FactorName(r), Constants.PerUnit(r.factor))
    ensures FromFactorTable(r)
  {
    FactorNamesDistinct();
    LookupEntry(EmissionFactors, i);
  }

  /** The multiplying blocks, in order, carry the names and factors of the
      table's rows i, i + 1, … */
  predicate RowsFrom(checks: Checks, i: nat) {
    checks.Done? ||
    (if checks.rule.Direct? then RowsFrom(checks.next, i)
     else i < |EmissionFactors| && EmissionFactors[i] == (FactorName(checks.rule), Constants.PerUnit(checks.rule.factor))
          && RowsFrom(checks.next, i + 1))
  }

  lemma {:induction false} RowsGiveFactors(checks: Checks, i: nat)
    requires RowsFrom(checks, i)
    ensures FactorsFromTable(checks)
  {
    if checks.Check? {
      if checks.rule.Direct? {
        RowsGiveFactors(checks.next, i);
      } else {
        FactorOfEntry(checks.rule, i);
        RowsGiveFactors(checks.next, i + 1);
      }
    }
  }

  /** Every multiplier in the blocks is `EMISSION_FACTORS[name]`: the Scope 1
      blocks use rows 0-10, the Scope 2 blocks rows 12-14 and the Scope 3
      blocks rows 15-29. */
  lemma Scope1FactorsFromTable()
    ensures FactorsFromTable(Scope1Checks)
  {
    Scope1MiddleRows();
    RowsGiveFactors(Scope1Checks, 0);
  }

  /** The blocks after the first three (propane onwards) use rows 3-10. */
  lemma Scope1MiddleRows()
    ensures RowsFrom(Scope1Checks.next.next.next, 3)
  {
    Scope1LaterRows();
  }

  /** The blocks after the first six (mobile diesel onwards) use rows 6-10. */
  lemma Scope1LaterRows()
    ensures RowsFrom(Scope1Checks.next.next.next.next.next.next, 6)
  {
  }

  lemma Scope2FactorsFromTable()
    ensures FactorsFromTable(Scope2Checks)
  {
    RowsGiveFactors(Scope2Checks, 12);
  }

  lemma Scope3FactorsFromTable()
    ensures FactorsFromTable(Scope3Checks)
  {
    Scope3LaterRows();
    RowsGiveFactors(Scope3Checks, 15);
  }

  /** The blocks after the first seven (upstream leased assets onwards) use
      rows 22-29. */
  lemma Scope3LaterRows()
    ensures RowsFrom(Scope3Checks.next.next.next.next.next.next.next, 22)
  {
  }

  /** calculations.py and constants.py carry the same factor table. */
  lemma FactorTablesIdentical()
    ensures EmissionFactors == Constants.EmissionFactors
    ensures ElectricityByRegion == Constants.ElectricityByRegion
  {
  }

  // ---------------------------------------------------------------------------
  // Properties of the electricity block

  lemma ElectricityRegionsDistinct()
    ensures DistinctKeys(ElectricityByRegion)
  {
  }

  /** A region in the table gets its own factor. */
  lemma RegionFactorOfEntry(i: nat)
    requires i < |ElectricityByRegion|
    ensures RegionFactor(ElectricityByRegion[i].0) == ElectricityByRegion[i].1
  {
    ElectricityRegionsDistinct();
    LookupEntry(ElectricityByRegion, i);
  }

  /** Any other region silently gets the North America factor. */
  lemma RegionFactorOfUnknown(region: string)
    requires !HasKey(ElectricityByRegion, region)
    ensures RegionFactor(region) == 0.000429
  {
    LookupFound(ElectricityByRegion, region);
  }

  /** Every region, known or not, gets a positive factor. */
  lemma RegionFactorPositive(region: string)
    ensures RegionFactor(region) > 0.0
  {
    LookupFound(ElectricityByRegion, region);
    if HasKey(ElectricityByRegion, region) {
      var f := RegionFactor(region);
      assert (region, f) in ElectricityByRegion;
      assert forall i :: 0 <= i < |ElectricityByRegion| ==> ElectricityByRegion[i].1 > 0.0;
    }
  }

  lemma LocationBasedFormula(s2: Scope2Data)
    requires "purchased_electricity" in s2.quantities && LocationBased(s2)
    ensures ElectricityEmissions(s2) == s2.quantities["purchased_electricity"] * RegionFactor(s2.gridRegion.value)
  {
  }

  /** Location-based with the i-th grid region of the table: kWh × that
      region's factor. */
  lemma LocationBasedKnownRegion(s2: Scope2Data, i: nat)
    requires "purchased_electricity" in s2.quantities && LocationBased(s2)
    requires i < |ElectricityByRegion| && s2.gridRegion.value == ElectricityByRegion[i].0
    ensures ElectricityEmissions(s2) == s2.quantities["purchased_electricity"] * ElectricityByRegion[i].1
  {
    var entry := ElectricityByRegion[i];
    RegionFactorOfEntry(i);
    assert RegionFactor(s2.gridRegion.value) == entry.1;
    LocationBasedFormula(s2);
  }

  /** Location-based with a region not in the table: kWh × 0.000429. */
  lemma LocationBasedUnknownRegion(s2: Scope2Data)
    requires "purchased_electricity" in s2.quantities && LocationBased(s2)
    requires !HasKey(ElectricityByRegion, s2.gridRegion.value)
    ensures ElectricityEmissions(s2) == s2.quantities["purchased_electricity"] * 0.000429
  {
    RegionFactorOfUnknown(s2.gridRegion.value);
  }

  /** The location-based figure ignores the renewable settings. */
  lemma LocationBasedIgnoresRenewables(s2: Scope2Data, ppa: Option<bool>, pct: Option<real>)
    requires "purchased_electricity" in s2.quantities && LocationBased(s2)
    ensures ElectricityEmissions(s2) == ElectricityEmissions(s2.(hasRenewablePpa := ppa, renewablePercentage := pct))
  {
  }

  /** Every other case (market-based, no method, or no grid region) charges
      the North America factor on the non-renewable share; the percentage only
      counts when a renewable PPA is declared. */
  lemma MarketBasedElectricity(s2: Scope2Data)
    requires "purchased_electricity" in s2.quantities
    requires !(s2.calculationMethod == Some("Location-based") && s2.gridRegion.Some?)
    ensures s2.hasRenewablePpa != Some(true) ==>
      ElectricityEmissions(s2) == s2.quantities["purchased_electricity"] * 0.000429
    ensures s2.hasRenewablePpa == Some(true) && s2.renewablePercentage.Some? ==>
      ElectricityEmissions(s2) ==
        (1.0 - s2.renewablePercentage.value / 100.0) * ElectricityEmissions(s2.(hasRenewablePpa := None))
    ensures s2.hasRenewablePpa == Some(true) && s2.renewablePercentage == Some(100.0) ==>
      ElectricityEmissions(s2) == 0.0
  {
  }

  // ---------------------------------------------------------------------------
  // Properties of the breakdowns

  /** The comprehension keeps order: filtering a concatenation filters each part. */
  lemma {:induction false} PositiveConcat(s: seq<Entry>, t: seq<Entry>)
    ensures Positive(s + t) == Positive(s) + Positive(t)
  {
    if s == [] {
      assert s + t == t;
    } else {
      assert (s + t)[1..] == s[1..] + t;
      PositiveConcat(s[1..], t);
    }
  }

  /** Dropping entries that are zero changes no sum when nothing is negative. */
  lemma {:induction false} PositiveSum(s: seq<Entry>)
    requires forall e :: e in s ==> e.1 >= 0.0
    ensures Sum(Positive(s)) == Sum(s)
  {
    if s != [] {
      assert forall e :: e in s[1..] ==> e in s;
      PositiveSum(s[1..]);
      if s[0].1 > 0.0 {
        assert Positive(s) == [s[0]] + Positive(s[1..]);
        assert ([s[0]] + Positive(s[1..]))[1..] == Positive(s[1..]);
      }
    }
  }

  /** A Scope 1 label is present exactly when its key is, carrying
      quantity × factor (or the quantity itself for the tCO2e categories). */
  lemma Scope1Entry(r: Rule, s1: map<string, real>, v: real)
    requires Member(r, Scope1Checks)
    ensures (r.caption, v) in Scope1Terms(s1) <==> Applies(r, s1) && v == Contribution(r, s1)
  {
    Scope1CaptionsDistinct();
    CaptionEntry(r, Scope1Checks, s1, v);
  }

  lemma Scope3Entry(r: Rule, s3: map<string, real>, v: real)
    requires Member(r, Scope3Checks)
    ensures (r.caption, v) in Scope3Terms(s3) <==> Applies(r, s3) && v == Contribution(r, s3)
  {
    Scope3CaptionsDistinct();
    CaptionEntry(r, Scope3Checks, s3, v);
  }

  lemma Scope2Entry(r: Rule, s2: Scope2Data, v: real)
    requires Member(r, Scope2Checks)
    ensures (r.caption, v) in Scope2Terms(s2) <==> Applies(r, s2.quantities) && v == Contribution(r, s2.quantities)
  {
    Scope2CaptionsDistinct();
    UnusedCaptionNotMember("Purchased Electricity", r, Scope2Checks);
    CaptionEntry(r, Scope2Checks, s2.quantities, v);
  }

  /** Process emissions and other direct emissions are already in tCO2e and
      pass through unmultiplied. */
  lemma DirectEmissionsPassThrough(s1: map<string, real>, v: real)
    ensures ("Process Emissions", v) in Scope1Terms(s1) <==> "process_emissions" in s1 && v == s1["process_emissions"]
    ensures ("Other Direct", v) in Scope1Terms(s1) <==> "other_direct" in s1 && v == s1["other_direct"]
  {
    Scope1Entry(Direct("process_emissions", "Process Emissions"), s1, v);
    Scope1Entry(Direct("other_direct", "Other Direct"), s1, v);
  }

  /** Use of sold products needs both the unit count and the lifetime, and is
      units × 0.23 × lifetime; doubling the lifetime doubles it. */
  lemma UseOfSoldProducts(s3: map<string, real>, v: real)
    ensures ("Use of Sold Products", v) in Scope3Terms(s3) <==>
      "use_of_products" in s3 && "product_avg_lifetime" in s3 &&
      v == s3["use_of_products"] * 0.23 * s3["product_avg_lifetime"]
    ensures "use_of_products" in s3 && "product_avg_lifetime" in s3 ==>
      var doubled := s3["product_avg_lifetime" := 2.0 * s3["product_avg_lifetime"]];
      Contribution(UsePhase("use_of_products", "product_avg_lifetime", "Use of Sold Products", 0.23), doubled) == 2.0 * Contribution(UsePhase("use_of_products", "product_avg_lifetime", "Use of Sold Products", 0.23), s3)
  {
    Scope3Entry(UsePhase("use_of_products", "product_avg_lifetime", "Use of Sold Products", 0.23), s3, v);
  }

  /** With non-negative quantities the filtered breakdowns add up to the
      subtotals: the filter only drops entries that are zero. */
  lemma Scope1BreakdownAddsUp(s1: map<string, real>)
    requires NonNegative(s1)
    ensures Sum(Positive(Scope1Terms(s1))) == Sum(Scope1Terms(s1))
  {
    Scope1FactorsNonNegative();
    TermsNonNegative(Scope1Checks, s1);
    PositiveSum(Scope1Terms(s1));
  }

  lemma Scope3BreakdownAddsUp(s3: map<string, real>)
    requires NonNegative(s3)
    ensures Sum(Positive(Scope3Terms(s3))) == Sum(Scope3Terms(s3))
  {
    Scope3FactorsNonNegative();
    TermsNonNegative(Scope3Checks, s3);
    PositiveSum(Scope3Terms(s3));
  }

  /** For Scope 2 the renewable share must also be at most 100%. */
  lemma Scope2BreakdownAddsUp(s2: Scope2Data)
    requires NonNegative(s2.quantities) && RenewableShare(s2) <= 100.0
    ensures Sum(Positive(Scope2Terms(s2))) == Sum(Scope2Terms(s2))
  {
    Scope2FactorsNonNegative();
    TermsNonNegative(Scope2Checks, s2.quantities);
    PositiveSum(Scope2Terms(s2));
  }

  lemma {:induction false} NoTermsWithoutData(checks: Checks)
    ensures Terms(checks, map[]) == []
  {
    if checks.Check? {
      NoTermsWithoutData(checks.next);
    }
  }

  /** Empty scope 2 and scope 3 dictionaries contribute nothing. */
  lemma EmptyInputs(s2: Scope2Data)
    requires s2.quantities == map[]
    ensures Scope2Terms(s2) == [] && Scope3Terms(map[]) == []
  {
    NoTermsWithoutData(Scope2Checks);
    NoTermsWithoutData(Scope3Checks);
  }

  /** No block of the list finds its keys. */
  predicate Untouched(checks: Checks, data: map<string, real>) {
    checks.Done? || (!Applies(checks.rule, data) && Untouched(checks.next, data))
  }

  lemma {:induction false} UntouchedTerms(checks: Checks, data: map<string, real>)
    requires Untouched(checks, data)
    ensures Terms(checks, data) == []
  {
    if checks.Check? {
      UntouchedTerms(checks.next, data);
    }
  }

  /** 1000 m³ of natural gas and nothing else: Scope 1 is 1.85 tCO2e, all of
      it under "Natural Gas" (with EmptyInputs, the other scopes add nothing). */
  lemma NaturalGasExample()
    ensures Scope1Terms(map["natural_gas" := 1000.0]) == [("Natural Gas", 1.85)]
    ensures Sum(Scope1Terms(map["natural_gas" := 1000.0])) == 1.85
    ensures Positive(Scope1Terms(map["natural_gas" := 1000.0])) == [("Natural Gas", 1.85)]
  {
    assert Untouched(Scope1Checks.next, map["natural_gas" := 1000.0]);
    UntouchedTerms(Scope1Checks.next, map["natural_gas" := 1000.0]);
  }
}
