/** utils/data_processing.py: input validation, table lookups with an
    "Other" fallback, the geometric reduction trajectory, sample strategies
    ordered by dominant scope, company-record defaults and the two guarded
    ratios. */
module DataProcessing {
  import opened Common
  import Constants

  // ---------------------------------------------------------------------------
  // validate_input_data

  /** A dictionary value: a number (int or float; a bool is an int in Python
      and is never negative) or anything else, which the check ignores. */
  datatype Value = Number(x: real) | NonNumeric

  predicate IsNegative(v: Value) {
    v.Number? && v.x < 0.0
  }

  /** The keys with a negative number, in dictionary order: none exactly
      when no value is negative. */
  function NegativeFields(data: seq<(string, Value)>): (r: seq<string>)
    ensures |r| <= |data|
    ensures r == [] <==> forall i :: 0 <= i < |data| ==> !IsNegative(data[i].1)
  {
    if data == [] then []
    else
      var last := data[|data| - 1];
      NegativeFields(data[..|data| - 1]) + (if IsNegative(last.1) then [last.0] else [])
  }

  /** `sep.join(parts)` */
  function Join(parts: seq<string>, sep: string): string {
    if parts == [] then ""
    else if |parts| == 1 then parts[0]
    else parts[0] + sep + Join(parts[1..], sep)
  }

  function NoDataMessage(dataType: string): string {
    "No " + dataType + " data provided."
  }

  function NegativeMessage(fields: seq<string>): string {
    "Negative values found in " + Join(fields, ", ") + ". Please provide non-negative values."
  }

  /** `validate_input_data(data_dict, data_type)`: an empty dictionary is
      rejected, then any negative number is, naming every offending key;
      everything else is accepted with an empty message. */
  method ValidateInputData(data: seq<(string, Value)>, dataType: string) returns (valid: bool, message: string)
    ensures valid <==> data != [] && forall i :: 0 <= i < |data| ==> !IsNegative(data[i].1)
    ensures data == [] ==> message == NoDataMessage(dataType)
    ensures data != [] && !valid ==> message == NegativeMessage(NegativeFields(data))
    ensures valid ==> message == ""
  {
    if |data| == 0 {
      return false, NoDataMessage(dataType);
    }
    var negativeFields: seq<string> := [];
    var i := 0;
    while i < |data|
      invariant 0 <= i <= |data|
      invariant negativeFields == NegativeFields(data[..i])
    {
      if data[i].1.Number? && data[i].1.x < 0.0 {
        negativeFields := negativeFields + [data[i].0];
      }
      assert data[..i + 1][..i] == data[..i];
      i := i + 1;
    }
    assert data[..i] == data;
    NegativeFieldsExact(data);
    if |negativeFields| > 0 {
      return false, NegativeMessage(negativeFields);
    }
    return true, "";
  }

  /** A key is listed exactly when some entry with that key holds a negative
      number; nothing is listed exactly when no value is negative. */
  lemma {:induction false} NegativeFieldsExact(data: seq<(string, Value)>)
    ensures forall k :: k in NegativeFields(data) <==>
      exists i :: 0 <= i < |data| && data[i].0 == k && IsNegative(data[i].1)
    ensures NegativeFields(data) == [] <==> forall i :: 0 <= i < |data| ==> !IsNegative(data[i].1)
    ensures |NegativeFields(data)| <= |data|
  {
    if data != [] {
      var front := data[..|data| - 1];
      NegativeFieldsExact(front);
      assert forall i :: 0 <= i < |front| ==> front[i] == data[i];
      forall k | k in NegativeFields(data)
        ensures exists i :: 0 <= i < |data| && data[i].0 == k && IsNegative(data[i].1)
      {
        if k !in NegativeFields(front) {
          assert data[|data| - 1].0 == k && IsNegative(data[|data| - 1].1);
        }
      }
      forall k, i | 0 <= i < |data| && data[i].0 == k && IsNegative(data[i].1)
        ensures k in NegativeFields(data)
      {
        if i < |front| {
          assert front[i].0 == k && IsNegative(front[i].1);
        }
      }
      if NegativeFields(data) == [] {
        assert NegativeFields(front) == [];
      }
    }
  }

  /** A single offending key is named on its own, without separators. */
  lemma OneNegativeField(key: string, v: real, dataType: string)
    requires v < 0.0
    ensures NegativeMessage(NegativeFields([(key, Number(v))])) ==
      "Negative values found in " + key + ". Please provide non-negative values."
  {
    assert [(key, Number(v))][..0] == [];
  }

  // ---------------------------------------------------------------------------
  // get_industry_data, get_scope_distribution

  lemma OtherBenchmarkRow()
    ensures Lookup(Constants.IndustryBenchmarks, "Other") == Some(Constants.Benchmark(80.0, 30.0, 200.0))
  {
    assert forall i :: 0 <= i < 19 ==> Constants.IndustryBenchmarks[i].0 != "Other";
    LookupAt(Constants.IndustryBenchmarks, "Other", 19);
  }

  lemma OtherDistributionRow()
    ensures Lookup(Constants.ScopeDistributions, "Other") == Some(Constants.ScopeShares(25.0, 25.0, 50.0))
  {
    assert forall i :: 0 <= i < 19 ==> Constants.ScopeDistributions[i].0 != "Other";
    LookupAt(Constants.ScopeDistributions, "Other", 19);
  }

  /** `get_industry_data(industry)`: the industry's own benchmark row, or the
      "Other" row for an industry not in the table. */
  function GetIndustryData(industry: string): (b: Constants.Benchmark)
    ensures HasKey(Constants.IndustryBenchmarks, industry) ==> (industry, b) in Constants.IndustryBenchmarks
    ensures !HasKey(Constants.IndustryBenchmarks, industry) ==> b == Constants.Benchmark(80.0, 30.0, 200.0)
  {
    LookupFound(Constants.IndustryBenchmarks, industry);
    OtherBenchmarkRow();
    match Lookup(Constants.IndustryBenchmarks, industry)
    case Some(row) => row
    case None => Lookup(Constants.IndustryBenchmarks, "Other").value
  }

  /** `get_scope_distribution(industry)`, with the same fallback. */
  function GetScopeDistribution(industry: string): (d: Constants.ScopeShares)
    ensures HasKey(Constants.ScopeDistributions, industry) ==> (industry, d) in Constants.ScopeDistributions
    ensures !HasKey(Constants.ScopeDistributions, industry) ==> d == Constants.ScopeShares(25.0, 25.0, 50.0)
  {
    LookupFound(Constants.ScopeDistributions, industry);
    OtherDistributionRow();
    match Lookup(Constants.ScopeDistributions, industry)
    case Some(row) => row
    case None => Lookup(Constants.ScopeDistributions, "Other").value
  }

  /** Whatever the industry, the shares returned add up to 100 percent. */
  lemma ScopeDistributionSumsTo100(industry: string)
    ensures var d := GetScopeDistribution(industry); d.scope1 + d.scope2 + d.scope3 == 100.0
  {
    Constants.ScopeSharesSumTo100();
  }

  // ---------------------------------------------------------------------------
  // calculate_targets

  function Pow(x: real, n: nat): real {
    if n == 0 then 1.0 else x * Pow(x, n - 1)
  }

  datatype TrajectoryPoint = TrajectoryPoint(year: int, emissions: real, reductionFromBase: real)

  datatype TargetPlan = TargetPlan(
    baseEmissions: real, targetEmissions: real, reductionPercentage: real,
    annualReductionPercentage: real, annualReductionAbsolute: real,
    baseYear: int, targetYear: int, trajectory: seq<TrajectoryPoint>)

  /** Year i of the trajectory: emissions shrink by the annual rate each
      year, and the emissions and the reduction from base make up the base. */
  function PlannedPoint(base: real, rate: real, baseYear: int, i: nat): (p: TrajectoryPoint)
    ensures p.year == baseYear + i
    ensures p.emissions + base * p.reductionFromBase / 100.0 == base
  {
    var factor := Pow(1.0 - rate, i);
    assert base * ((1.0 - factor) * 100.0) / 100.0 == base - base * factor;
    TrajectoryPoint(baseYear + i, base * factor, (1.0 - factor) * 100.0)
  }

  /** `calculate_targets(base_emissions, reduction_percentage, target_year,
      base_year)`. The source derives the annual rate as
      1 - (1 - reduction_percentage/100) ** (1/years); that root is the
      parameter `rate` here. Equal years divide by zero in the source, and
      a 100% cut with a target year before the base year raises 0.0 to a
      negative power; both give None. Any other target year before the base
      year gives an empty trajectory. */
  method CalculateTargets(baseEmissions: real, reductionPercentage: real, targetYear: int, baseYear: int, rate: real)
    returns (plan: Option<TargetPlan>)
    ensures plan.None? <==> targetYear == baseYear || (reductionPercentage == 100.0 && targetYear < baseYear)
    ensures plan.Some? ==>
      var p := plan.value;
      && p.baseEmissions == baseEmissions
      && p.targetEmissions == baseEmissions * (1.0 - reductionPercentage / 100.0)
      && p.reductionPercentage == reductionPercentage
      && p.annualReductionPercentage == rate * 100.0
      && p.annualReductionAbsolute == baseEmissions * rate
      && p.baseYear == baseYear && p.targetYear == targetYear
      && |p.trajectory| == (if targetYear > baseYear then targetYear - baseYear + 1 else 0)
      && forall i :: 0 <= i < |p.trajectory| ==> p.trajectory[i] == PlannedPoint(baseEmissions, rate, baseYear, i)
  {
    var years := targetYear - baseYear;
    if years == 0 || (reductionPercentage == 100.0 && years < 0) {
      return None;
    }
    var annualReductionPercentage := rate * 100.0;
    var annualReductionAbsolute := baseEmissions * rate;
    var targetEmissions := baseEmissions * (1.0 - reductionPercentage / 100.0);
    var trajectory: seq<TrajectoryPoint> := [];
    var i := 0;
    while i < years + 1
      invariant 0 <= i && (years >= 0 ==> i <= years + 1) && (years < 0 ==> i == 0)
      invariant |trajectory| == i
      invariant forall j :: 0 <= j < i ==> trajectory[j] == PlannedPoint(baseEmissions, rate, baseYear, j)
    {
      var year := baseYear + i;
      var reductionFactor := Pow(1.0 - rate, i);
      var yearlyEmissions := baseEmissions * reductionFactor;
      trajectory := trajectory + [TrajectoryPoint(year, yearlyEmissions, (1.0 - reductionFactor) * 100.0)];
      i := i + 1;
    }
    return Some(TargetPlan(baseEmissions, targetEmissions, reductionPercentage,
                           annualReductionPercentage, annualReductionAbsolute,
                           baseYear, targetYear, trajectory));
  }

  lemma {:induction false} PowInUnitInterval(x: real, n: nat)
    requires 0.0 <= x <= 1.0
    ensures 0.0 <= Pow(x, n) <= 1.0
  {
    if n > 0 {
      PowInUnitInterval(x, n - 1);
      assert x * Pow(x, n - 1) <= 1.0 * Pow(x, n - 1);
    }
  }

  lemma {:induction false} PowNonIncreasing(x: real, m: nat, n: nat)
    requires 0.0 <= x <= 1.0 && m <= n
    ensures Pow(x, n) <= Pow(x, m)
  {
    if m < n {
      PowNonIncreasing(x, m, n - 1);
      PowInUnitInterval(x, n - 1);
      assert x * Pow(x, n - 1) <= 1.0 * Pow(x, n - 1);
    }
  }

  /** Year 0 is the base year at base emissions with no reduction; each later
      year is the previous one times (1 - rate). */
  lemma TrajectoryGeometric(base: real, rate: real, baseYear: int, i: nat)
    ensures PlannedPoint(base, rate, baseYear, 0) == TrajectoryPoint(baseYear, base, 0.0)
    ensures PlannedPoint(base, rate, baseYear, i + 1).emissions ==
            PlannedPoint(base, rate, baseYear, i).emissions * (1.0 - rate)
    ensures PlannedPoint(base, rate, baseYear, i + 1).year == PlannedPoint(base, rate, baseYear, i).year + 1
  {
  }

  /** With a rate between 0 and 1 and non-negative base emissions, emissions
      never rise from one year to a later one, and the reduction stays between
      0 and 100 percent. */
  lemma TrajectoryNonIncreasing(base: real, rate: real, baseYear: int, i: nat, j: nat)
    requires 0.0 <= rate <= 1.0 && base >= 0.0 && i <= j
    ensures PlannedPoint(base, rate, baseYear, j).emissions <= PlannedPoint(base, rate, baseYear, i).emissions
    ensures 0.0 <= PlannedPoint(base, rate, baseYear, j).reductionFromBase <= 100.0
  {
    PowNonIncreasing(1.0 - rate, i, j);
    PowInUnitInterval(1.0 - rate, j);
    assert base * Pow(1.0 - rate, j) <= base * Pow(1.0 - rate, i);
  }

  /** When the rate is the years-th root the source computes, the final year
      of the trajectory lands exactly on the target emissions and reduction. */
  lemma TrajectoryReachesTarget(base: real, p: real, rate: real, baseYear: int, years: nat)
    requires Pow(1.0 - rate, years) == 1.0 - p / 100.0
    ensures PlannedPoint(base, rate, baseYear, years).emissions == base * (1.0 - p / 100.0)
    ensures PlannedPoint(base, rate, baseYear, years).reductionFromBase == p
    ensures PlannedPoint(base, rate, baseYear, years).year == baseYear + years
  {
  }

  // ---------------------------------------------------------------------------
  // generate_sample_strategies

  datatype BasicStrategy = BasicStrategy(name: string, potential: string, timeframe: string)

  const BasicStrategies: seq<(string, seq<BasicStrategy>)> := [
    ("scope1", [
      BasicStrategy("Energy efficiency improvements", "Medium", "Short-term"),
      BasicStrategy("Switch to low-carbon fuels", "High", "Medium-term"),
      BasicStrategy("Electrify vehicle fleet", "High", "Medium-term"),
      BasicStrategy("Optimize HVAC systems", "Medium", "Short-term"),
      BasicStrategy("Reduce refrigerant leaks", "Medium", "Short-term")]),
    ("scope2", [
      BasicStrategy("Purchase renewable energy", "High", "Short-term"),
      BasicStrategy("Install on-site renewables", "High", "Medium-term"),
      BasicStrategy("Energy efficiency in buildings", "Medium", "Short-term"),
      BasicStrategy("Smart building management", "Medium", "Medium-term"),
      BasicStrategy("LED lighting upgrades", "Low", "Short-term")]),
    ("scope3", [
      BasicStrategy("Supplier engagement program", "High", "Long-term"),
      BasicStrategy("Optimize logistics", "Medium", "Medium-term"),
      BasicStrategy("Reduce business travel", "Low", "Short-term"),
      BasicStrategy("Sustainable procurement policy", "High", "Medium-term"),
      BasicStrategy("Product redesign for efficiency", "High", "Long-term")])
  ]

  /** `sum(emissions_data.values())` */
  function TotalOf(data: seq<(string, real)>): real {
    if data == [] then 0.0 else data[0].1 + TotalOf(data[1..])
  }

  /** `max(data, key=value)`: the first entry holding the largest value. */
  function FirstMaxIndex(data: seq<(string, real)>): (k: nat)
    requires data != []
    ensures k < |data|
    ensures forall j :: 0 <= j < |data| ==> data[j].1 <= data[k].1
    ensures forall j :: 0 <= j < k ==> data[j].1 < data[k].1
  {
    if |data| == 1 then 0
    else
      var k := FirstMaxIndex(data[..|data| - 1]);
      if data[|data| - 1].1 > data[k].1 then |data| - 1 else k
  }

  /** The scope with the largest emissions, or "scope1" when the total is not
      positive. */
  function DominantScope(data: seq<(string, real)>): (d: string)
    ensures TotalOf(data) <= 0.0 ==> d == "scope1"
    ensures TotalOf(data) > 0.0 ==>
      exists k :: 0 <= k < |data| && data[k].0 == d && forall j :: 0 <= j < |data| ==> data[j].1 <= data[k].1
  {
    if TotalOf(data) > 0.0 && data != [] then data[FirstMaxIndex(data)].0 else "scope1"
  }

  /** The first two strategies of every scope other than the dominant one, in
      table order. */
  function OthersFirstTwo(table: seq<(string, seq<BasicStrategy>)>, dominant: string): seq<BasicStrategy> {
    if table == [] then []
    else
      var last := table[|table| - 1];
      OthersFirstTwo(table[..|table| - 1], dominant) + (if last.0 != dominant then FirstTwo(last.1) else [])
  }

  /** `s[:2]` */
  function FirstTwo<T>(s: seq<T>): seq<T> {
    if |s| < 2 then s else s[..2]
  }

  /** `generate_sample_strategies(emissions_data, industry)`: the dominant
      scope's five strategies, then the first two of each other scope. A
      dominant key that is not a scope name fails in the source (KeyError)
      and gives None here. `industry` is not used by the source either. */
  method GenerateSampleStrategies(data: seq<(string, real)>, industry: string)
    returns (strategies: Option<seq<BasicStrategy>>)
    ensures var dominant := DominantScope(data);
      && (strategies.None? <==> !HasKey(BasicStrategies, dominant))
      && (strategies.Some? ==>
            strategies.value == Lookup(BasicStrategies, dominant).value + OthersFirstTwo(BasicStrategies, dominant))
  {
    var dominant := DominantScope(data);
    LookupFound(BasicStrategies, dominant);
    var own := Lookup(BasicStrategies, dominant);
    if own.None? {
      return None;
    }
    var prioritized := own.value;
    for idx := 0 to |BasicStrategies|
      invariant prioritized == own.value + OthersFirstTwo(BasicStrategies[..idx], dominant)
    {
      assert BasicStrategies[..idx + 1][..idx] == BasicStrategies[..idx];
      var entry := BasicStrategies[idx];
      if entry.0 != dominant {
        prioritized := prioritized + FirstTwo(entry.1);
      }
    }
    assert BasicStrategies[..|BasicStrategies|] == BasicStrategies;
    return Some(prioritized);
  }

  /** The dominant scope is one holding the largest emissions; earlier entries
      win ties; with a non-positive total it is "scope1". */
  lemma DominantScopeIsLargest(data: seq<(string, real)>)
    ensures TotalOf(data) > 0.0 ==>
      exists k :: (0 <= k < |data| && data[k].0 == DominantScope(data)
        && (forall j :: 0 <= j < |data| ==> data[j].1 <= data[k].1)
        && (forall j :: 0 <= j < k ==> data[j].1 < data[k].1))
    ensures TotalOf(data) <= 0.0 ==> DominantScope(data) == "scope1"
  {
    if TotalOf(data) > 0.0 {
      assert data != [];
      var k := FirstMaxIndex(data);
      assert data[k].0 == DominantScope(data);
    }
  }

  /** Over the three-scope table, the tail is the first two of each
      non-dominant scope, in table order. */
  lemma OthersOfThreeScopes(d: string)
    ensures var t := BasicStrategies;
      OthersFirstTwo(t, d) ==
        (if t[0].0 != d then FirstTwo(t[0].1) else []) +
        (if t[1].0 != d then FirstTwo(t[1].1) else []) +
        (if t[2].0 != d then FirstTwo(t[2].1) else [])
  {
    var t := BasicStrategies;
    var t2, t1 := t[..2], t[..1];
    assert t2[..1] == t1 && t1[..0] == [];
    assert t2[1] == t[1] && t1[0] == t[0];
    assert OthersFirstTwo(t1, d) == (if t[0].0 != d then FirstTwo(t[0].1) else []);
    assert OthersFirstTwo(t2, d) == OthersFirstTwo(t1, d) + (if t[1].0 != d then FirstTwo(t[1].1) else []);
    assert OthersFirstTwo(t, d) == OthersFirstTwo(t2, d) + (if t[2].0 != d then FirstTwo(t[2].1) else []);
  }

  /** Nine strategies whichever scope dominates: its own five, then two from
      each of the other two scopes, in table order. */
  lemma SampleStrategiesLayout(d: string)
    requires d == "scope1" || d == "scope2" || d == "scope3"
    ensures HasKey(BasicStrategies, d)
    ensures var s1 := BasicStrategies[0].1; var s2 := BasicStrategies[1].1; var s3 := BasicStrategies[2].1;
      var result := Lookup(BasicStrategies, d).value + OthersFirstTwo(BasicStrategies, d);
      && |result| == 9
      && (d == "scope1" ==> result == s1 + s2[..2] + s3[..2])
      && (d == "scope2" ==> result == s2 + s1[..2] + s3[..2])
      && (d == "scope3" ==> result == s3 + s1[..2] + s2[..2])
  {
    OthersOfThreeScopes(d);
    var t := BasicStrategies;
    assert t[0].0 == "scope1" && t[1].0 == "scope2" && t[2].0 == "scope3";
    if d == "scope1" {
      LookupAt(t, d, 0);
    } else if d == "scope2" {
      LookupAt(t, d, 1);
    } else {
      LookupAt(t, d, 2);
    }
  }

  // ---------------------------------------------------------------------------
  // normalize_company_data, calculate_emissions_intensity, calculate_per_employee_emissions

  /** The company dictionary as given: every field may be missing. */
  datatype CompanyInput = CompanyInput(
    name: Option<string>, industry: Option<string>, employees: Option<int>,
    revenue: Option<real>, year: Option<int>)

  datatype Company = Company(name: string, industry: string, employees: int, revenue: real, year: int)

  function Get<T>(o: Option<T>, default: T): T {
    if o.Some? then o.value else default
  }

  /** `normalize_company_data(company_data)` */
  function NormalizeCompanyData(c: CompanyInput): (n: Company)
    ensures n.employees >= 1 && n.revenue >= 0.1
    ensures n.name == (if c.name.Some? then c.name.value else "")
    ensures n.industry == (if c.industry.Some? then c.industry.value else "")
    ensures n.year == (if c.year.Some? then c.year.value else 2023)
    ensures c.employees.Some? && c.employees.value >= 1 ==> n.employees == c.employees.value
    ensures c.employees.Some? && c.employees.value < 1 ==> n.employees == 1
    ensures c.employees.None? ==> n.employees == 1
    ensures c.revenue.Some? && c.revenue.value >= 0.1 ==> n.revenue == c.revenue.value
    ensures c.revenue.Some? && c.revenue.value < 0.1 ==> n.revenue == 0.1
    ensures c.revenue.None? ==> n.revenue == 1.0
  {
    var employees := Get(c.employees, 1);
    var revenue := Get(c.revenue, 1.0);
    Company(Get(c.name, ""), Get(c.industry, ""),
            if 1 >= employees then 1 else employees,
            if 0.1 >= revenue then 0.1 else revenue,
            Get(c.year, 2023))
  }

  function AsInput(c: Company): CompanyInput {
    CompanyInput(Some(c.name), Some(c.industry), Some(c.employees), Some(c.revenue), Some(c.year))
  }

  /** Normalising a normalised record changes nothing. */
  lemma NormalizeIdempotent(c: CompanyInput)
    ensures NormalizeCompanyData(AsInput(NormalizeCompanyData(c))) == NormalizeCompanyData(c)
  {
  }

  /** `calculate_emissions_intensity(total_emissions, revenue)`: tCO2e per
      million USD, 0 for a revenue that is not positive. */
  function EmissionsIntensity(totalEmissions: real, revenue: real): (r: real)
    ensures revenue > 0.0 ==> r * revenue == totalEmissions
    ensures revenue <= 0.0 ==> r == 0.0
  {
    if revenue <= 0.0 then 0.0 else totalEmissions / revenue
  }

  /** `calculate_per_employee_emissions(total_emissions, employees)` */
  function PerEmployeeEmissions(totalEmissions: real, employees: int): (r: real)
    ensures employees > 0 ==> r * employees as real == totalEmissions
    ensures employees <= 0 ==> r == 0.0
  {
    if employees <= 0 then 0.0 else totalEmissions / employees as real
  }

  /** For a normalised record neither ratio hits its guard. */
  lemma NormalizedRatiosDivide(total: real, c: CompanyInput)
    ensures EmissionsIntensity(total, NormalizeCompanyData(c).revenue) * NormalizeCompanyData(c).revenue == total
    ensures PerEmployeeEmissions(total, NormalizeCompanyData(c).employees) * NormalizeCompanyData(c).employees as real == total
  {
  }
}
