/** The computations behind pages/4_Global_Comparison.py: the company's
    performance class against its industry, the scope-share notes, the
    per-employee comparison with national per-capita figures, the search for
    the country whose total emissions are closest to the company's, the
    sentence that puts the total in context, and the global pathways. */
module GlobalComparison {
  import opened Common
  import Constants
  import DataProcessing

  // ---------------------------------------------------------------------
  // Performance class against the industry benchmark
  // ---------------------------------------------------------------------

  datatype PerformanceClass = Leading | AboveAverage | BelowAverage | Lagging

  /** Position of a class from best (0) to worst (3). */
  function Rank(c: PerformanceClass): nat {
    match c
    case Leading => 0
    case AboveAverage => 1
    case BelowAverage => 2
    case Lagging => 3
  }

  /** The midpoint between the industry average and its worst performer, the
      last threshold before "Lagging". */
  function LaggingThreshold(b: Constants.Benchmark): real {
    (b.avgIntensity + b.worstPerformer) / 2.0
  }

  /** The class is given by the first threshold the intensity does not
      exceed: best performer, average, then the average/worst midpoint. */
  function Classify(intensity: real, b: Constants.Benchmark): (c: PerformanceClass)
    ensures c == Leading <==> intensity <= b.bestPerformer
    ensures c == AboveAverage <==> b.bestPerformer < intensity <= b.avgIntensity
    ensures c == BelowAverage <==>
      b.bestPerformer < intensity && b.avgIntensity < intensity <= LaggingThreshold(b)
    ensures c == Lagging <==>
      b.bestPerformer < intensity && b.avgIntensity < intensity && LaggingThreshold(b) < intensity
  {
    if intensity <= b.bestPerformer then Leading
    else if intensity <= b.avgIntensity then AboveAverage
    else if intensity <= LaggingThreshold(b) then BelowAverage
    else Lagging
  }

  /** A higher intensity never earns a better class, whatever the thresholds. */
  lemma ClassifyMonotone(x: real, y: real, b: Constants.Benchmark)
    requires x <= y
    ensures Rank(Classify(x, b)) <= Rank(Classify(y, b))
  {
  }

  /** With an ordered benchmark row, a company is in one of the two upper
      classes exactly when it does not exceed the industry average. */
  lemma AtMostAverageIsUpperClass(intensity: real, b: Constants.Benchmark)
    requires b.bestPerformer <= b.avgIntensity
    ensures Rank(Classify(intensity, b)) <= 1 <==> intensity <= b.avgIntensity
  {
  }

  /** For every industry of the table, each of the four classes is reached:
      at the best performer, at the average, at the midpoint and at the worst
      performer. */
  lemma EveryClassReachable(i: nat)
    requires i < |Constants.IndustryBenchmarks|
    ensures var b := Constants.IndustryBenchmarks[i].1;
      Classify(b.bestPerformer, b) == Leading &&
      Classify(b.avgIntensity, b) == AboveAverage &&
      Classify(LaggingThreshold(b), b) == BelowAverage &&
      Classify(b.worstPerformer, b) == Lagging
  {
    Constants.BenchmarksOrdered();
    var b := Constants.IndustryBenchmarks[i].1;
    assert b.bestPerformer < b.avgIntensity < b.worstPerformer;
  }

  /** The industry section: intensity is emissions per million USD of revenue
      (0 without revenue), and a class is given only for an industry that is
      set and present in the benchmark table. */
  function IndustryAssessment(emissions: real, revenue: real, industry: string): (r: Option<PerformanceClass>)
    ensures r.Some? <==> industry != "" && HasKey(Constants.IndustryBenchmarks, industry)
    ensures r.Some? ==> exists b :: ((industry, b) in Constants.IndustryBenchmarks &&
      r.value == Classify(DataProcessing.EmissionsIntensity(emissions, revenue), b))
  {
    LookupFound(Constants.IndustryBenchmarks, industry);
    match Lookup(Constants.IndustryBenchmarks, industry)
    case Some(b) =>
      if industry != "" then Some(Classify(DataProcessing.EmissionsIntensity(emissions, revenue), b)) else None
    case None => None
  }

  // ---------------------------------------------------------------------
  // Scope-share notes
  // ---------------------------------------------------------------------

  /** The note under a scope's metric: none, "higher than industry average"
      or "lower than industry average". */
  datatype Note = NoNote | Higher | Lower

  /** A scope's share of the total in percent; the page divides without a
      guard, so a zero total is excluded. */
  function ScopePercent(scopeEmissions: real, total: real): (p: real)
    requires total != 0.0
    ensures p * total == scopeEmissions * 100.0
  {
    scopeEmissions / total * 100.0
  }

  /** A note appears when the company's share differs from the industry's by
      at least ten points, and the sign of the difference picks the text. */
  function ScopeNote(companyPct: real, industryPct: real): (n: Note)
    ensures n == NoNote <==> -10.0 < companyPct - industryPct < 10.0
    ensures n == Higher <==> companyPct - industryPct >= 10.0
    ensures n == Lower <==> companyPct - industryPct <= -10.0
  {
    var diff := companyPct - industryPct;
    if (if diff < 0.0 then -diff else diff) >= 10.0 then
      if diff > 0.0 then Higher else Lower
    else NoNote
  }

  /** Swapping the two shares swaps "higher" and "lower". */
  lemma ScopeNoteAntisymmetric(a: real, b: real)
    ensures ScopeNote(a, b) == Higher <==> ScopeNote(b, a) == Lower
    ensures ScopeNote(a, b) == NoNote <==> ScopeNote(b, a) == NoNote
  {
  }

  /** The three notes of the page, one per scope. */
  function ScopeNotes(s1: real, s2: real, s3: real, total: real, industry: Constants.ScopeShares): (notes: seq<Note>)
    requires total != 0.0
    ensures |notes| == 3
    ensures notes[0] == ScopeNote(ScopePercent(s1, total), industry.scope1)
    ensures notes[1] == ScopeNote(ScopePercent(s2, total), industry.scope2)
    ensures notes[2] == ScopeNote(ScopePercent(s3, total), industry.scope3)
  {
    [ScopeNote(ScopePercent(s1, total), industry.scope1),
     ScopeNote(ScopePercent(s2, total), industry.scope2),
     ScopeNote(ScopePercent(s3, total), industry.scope3)]
  }

  /** When the total is the sum of the scopes and the industry shares add up
      to 100, the differences cancel out: the company cannot be higher than
      its industry in all three scopes, nor lower in all three. */
  lemma NotesCannotAllAgree(s1: real, s2: real, s3: real, industry: Constants.ScopeShares)
    requires s1 + s2 + s3 != 0.0
    requires industry.scope1 + industry.scope2 + industry.scope3 == 100.0
    ensures var notes := ScopeNotes(s1, s2, s3, s1 + s2 + s3, industry);
      !(notes[0] == Higher && notes[1] == Higher && notes[2] == Higher) &&
      !(notes[0] == Lower && notes[1] == Lower && notes[2] == Lower)
  {
    var total := s1 + s2 + s3;
    var p1, p2, p3 := ScopePercent(s1, total), ScopePercent(s2, total), ScopePercent(s3, total);
    var sum := p1 + p2 + p3;
    assert sum * total == p1 * total + p2 * total + p3 * total;
    assert p1 * total + p2 * total + p3 * total == s1 * 100.0 + s2 * 100.0 + s3 * 100.0;
    assert s1 * 100.0 + s2 * 100.0 + s3 * 100.0 == 100.0 * total;
    CancelFactor(sum, 100.0, total);
  }

  lemma CancelFactor(x: real, y: real, t: real)
    requires t != 0.0 && x * t == y * t
    ensures x == y
  {
    assert (x - y) * t == 0.0;
  }

  // ---------------------------------------------------------------------
  // Per-employee emissions against national per-capita figures
  // ---------------------------------------------------------------------

  /** National emissions per capita, tCO2e. */
  const CountryPerCapita: seq<(string, real)> := [
    ("Qatar", 37.0),
    ("United States", 15.5),
    ("Australia", 15.4),
    ("Canada", 15.1),
    ("Russia", 11.7),
    ("Japan", 8.7),
    ("Germany", 8.4),
    ("China", 7.4),
    ("United Kingdom", 5.5),
    ("France", 4.6),
    ("Brazil", 2.2),
    ("India", 1.9),
    ("Kenya", 0.3),
    ("Ethiopia", 0.1),
    ("Global Average", 4.5)
  ]

  /** The bars of the global chart: five fixed countries' per-capita figures
      followed by the company's emissions per employee. */
  function GlobalBars(emissions: real, employees: int): (bars: seq<(string, real)>)
    ensures |bars| == 6
    ensures bars[..5] == [("United States", 15.5), ("Germany", 8.4), ("China", 7.4),
                          ("India", 1.9), ("Global Average", 4.5)]
    ensures bars[5].0 == "Your Org (per employee)"
    ensures employees > 0 ==> bars[5].1 * employees as real == emissions
    ensures employees <= 0 ==> bars[5].1 == 0.0
  {
    [("United States", CountryPerCapita[1].1), ("Germany", CountryPerCapita[6].1),
     ("China", CountryPerCapita[7].1), ("India", CountryPerCapita[11].1),
     ("Global Average", CountryPerCapita[14].1),
     ("Your Org (per employee)", DataProcessing.PerEmployeeEmissions(emissions, employees))]
  }

  /** The fixed bars are what the per-capita table stores for those countries. */
  lemma GlobalBarsFromTable(emissions: real, employees: int, k: nat)
    requires k < 5
    ensures Lookup(CountryPerCapita, GlobalBars(emissions, employees)[k].0)
      == Some(GlobalBars(emissions, employees)[k].1)
  {
    var bars := GlobalBars(emissions, employees);
    var idx := [1, 6, 7, 11, 14];
    var i := idx[k];
    assert CountryPerCapita[i] == bars[k];
    assert forall j :: 0 <= j < i ==> CountryPerCapita[j].0 != bars[k].0;
    LookupAt(CountryPerCapita, bars[k].0, i);
  }

  // ---------------------------------------------------------------------
  // The closest country by total emissions
  // ---------------------------------------------------------------------

  /** Sample national totals, tCO2e per year. */
  const CountryTotalEmissions: seq<(string, real)> := [
    ("United States", 5.0e9),
    ("Germany", 7.0e8),
    ("Finland", 5.0e7),
    ("Jamaica", 7.8e6),
    ("Barbados", 4.4e5)
  ]

  /** `abs(a - b)` */
  function Distance(a: real, b: real): (d: real)
    ensures d >= 0.0 && (d == a - b || d == b - a)
  {
    if a >= b then a - b else b - a
  }

  /** Entry i is at least as close to the company's emissions as every other
      entry, and strictly closer than every entry before it. */
  predicate FirstClosest(table: seq<(string, real)>, emissions: real, i: int) {
    0 <= i < |table| &&
    (forall j :: 0 <= j < |table| ==> Distance(table[i].1, emissions) <= Distance(table[j].1, emissions)) &&
    (forall j :: 0 <= j < i ==> Distance(table[i].1, emissions) < Distance(table[j].1, emissions))
  }

  /** The loop over the totals keeps the entry with the smallest distance,
      replacing it only on a strictly smaller one, from an infinite start. */
  method ClosestCountry(table: seq<(string, real)>, emissions: real) returns (closest: Option<string>)
    ensures closest.None? <==> table == []
    ensures closest.Some? ==>
      exists i :: FirstClosest(table, emissions, i) && table[i].0 == closest.value
  {
    closest := None;
    var smallest: Option<real> := None;  // None stands for float('inf')
    var best := 0;
    for k := 0 to |table|
      invariant smallest.None? <==> k == 0
      invariant closest.None? <==> k == 0
      invariant k > 0 ==> (0 <= best < k && closest == Some(table[best].0) &&
        smallest == Some(Distance(table[best].1, emissions)))
      invariant k > 0 ==> forall j :: 0 <= j < k ==> Distance(table[best].1, emissions) <= Distance(table[j].1, emissions)
      invariant k > 0 ==> forall j :: 0 <= j < best ==> Distance(table[best].1, emissions) < Distance(table[j].1, emissions)
    {
      var diff := Distance(table[k].1, emissions);
      if smallest.None? || diff < smallest.value {
        smallest := Some(diff);
        closest := Some(table[k].0);
        best := k;
      }
    }
    if closest.Some? {
      assert FirstClosest(table, emissions, best);
    }
  }

  /** At most one entry is the first closest one. */
  lemma FirstClosestUnique(table: seq<(string, real)>, emissions: real, i: int, k: int)
    requires FirstClosest(table, emissions, i) && FirstClosest(table, emissions, k)
    ensures i == k
  {
    var di, dk := Distance(table[i].1, emissions), Distance(table[k].1, emissions);
  }

  /** A company of 1,000 tCO2e is closest to Barbados; one of 4e8 tCO2e lies
      between Germany (3e8 away) and Finland (3.5e8 away) and gets Germany. */
  lemma ClosestCountryExamples()
    ensures FirstClosest(CountryTotalEmissions, 1000.0, 4)
    ensures FirstClosest(CountryTotalEmissions, 4.0e8, 1)
  {
  }

  // ---------------------------------------------------------------------
  // Putting the total in context
  // ---------------------------------------------------------------------

  /** The sentence shown under the total: a share of the United States'
      emissions, a small country, a number of households or of flights. */
  datatype Context =
    | ShareOfUnitedStates(percent: real)
    | LikeCountry(country: string)
    | Households(count: real)
    | Flights(count: real)

  /** Thresholds 1e9, 1e6 and 1e3 tCO2e choose the comparison; a household
      emits about 10 tCO2e a year and a transatlantic flight about 2. */
  function Contextualize(emissions: real, closest: string): (c: Context)
    ensures c.ShareOfUnitedStates? <==> emissions >= 1.0e9
    ensures c.LikeCountry? <==> 1.0e6 <= emissions < 1.0e9
    ensures c.Households? <==> 1.0e3 <= emissions < 1.0e6
    ensures c.Flights? <==> emissions < 1.0e3
  {
    if emissions >= 1.0e9 then ShareOfUnitedStates(emissions / CountryTotalEmissions[0].1 * 100.0)
    else if emissions >= 1.0e6 then LikeCountry(closest)
    else if emissions >= 1.0e3 then Households(emissions / 10.0)
    else Flights(emissions / 2.0)
  }

  /** Each comparison converts back to the company's total: the share of the
      United States' 5e9 tCO2e, ten tonnes per household, two per flight;
      the named country is the closest one found. */
  lemma ContextRoundTrip(emissions: real, closest: string)
    ensures match Contextualize(emissions, closest)
      case ShareOfUnitedStates(p) => p * 5.0e9 / 100.0 == emissions
      case LikeCountry(name) => name == closest
      case Households(n) => n * 10.0 == emissions
      case Flights(n) => n * 2.0 == emissions
  {
  }

  /** The context section: the closest country is searched first, and for
      the non-empty table of totals a sentence is always produced. */
  method ContextSentence(emissions: real) returns (c: Option<Context>)
    ensures c.Some?
    ensures exists i :: (FirstClosest(CountryTotalEmissions, emissions, i) &&
      c.value == Contextualize(emissions, CountryTotalEmissions[i].0))
  {
    var closest := ClosestCountry(CountryTotalEmissions, emissions);
    if closest.Some? {
      c := Some(Contextualize(emissions, closest.value));
    } else {
      assert false;
      c := None;
    }
  }

  // ---------------------------------------------------------------------
  // Global pathways
  // ---------------------------------------------------------------------

  /** Global emissions in 2020, tCO2e. */
  const CurrentGlobalEmissions: real := 51.0e9

  const PathwayYears: seq<int> := [2020, 2025, 2030, 2035, 2040, 2045, 2050]

  /** Share of 2020 emissions left in each pathway year. */
  const Pathway15C: seq<real> := [1.0, 0.80, 0.55, 0.30, 0.15, 0.05, 0.0]
  const Pathway2C: seq<real> := [1.0, 0.90, 0.75, 0.60, 0.45, 0.25, 0.10]

  /** The plotted series: 2020 emissions scaled by each multiplier. */
  function PathwayEmissions(multipliers: seq<real>): (e: seq<real>)
    ensures |e| == |multipliers|
    ensures forall k :: 0 <= k < |e| ==> e[k] == CurrentGlobalEmissions * multipliers[k]
  {
    if multipliers == [] then []
    else [CurrentGlobalEmissions * multipliers[0]] + PathwayEmissions(multipliers[1..])
  }

  predicate NonIncreasing(s: seq<real>) {
    forall i, j :: 0 <= i <= j < |s| ==> s[j] <= s[i]
  }

  /** Both pathways cover the seven years and start at today's emissions. */
  lemma PathwaysStartTogether()
    ensures |Pathway15C| == |Pathway2C| == |PathwayYears| == 7
    ensures PathwayEmissions(Pathway15C)[0] == PathwayEmissions(Pathway2C)[0] == CurrentGlobalEmissions
  {
  }

  /** The 1.5°C pathway never rises and reaches net zero in 2050. */
  lemma Pathway15CShape()
    ensures NonIncreasing(PathwayEmissions(Pathway15C))
    ensures PathwayEmissions(Pathway15C)[6] == 0.0
  {
    ScaledNonIncreasing(Pathway15C);
  }

  /** The 2°C pathway never rises and still emits a tenth of today's
      emissions in 2050. */
  lemma Pathway2CShape()
    ensures NonIncreasing(PathwayEmissions(Pathway2C))
    ensures PathwayEmissions(Pathway2C)[6] == CurrentGlobalEmissions / 10.0
  {
    ScaledNonIncreasing(Pathway2C);
  }

  /** In every year the 1.5°C pathway is at or below the 2°C one. */
  lemma PathwaysOrdered()
    ensures forall k :: 0 <= k < 7 ==> PathwayEmissions(Pathway15C)[k] <= PathwayEmissions(Pathway2C)[k]
  {
    var e1, e2 := PathwayEmissions(Pathway15C), PathwayEmissions(Pathway2C);
    assert forall k :: 0 <= k < 7 ==> Pathway15C[k] <= Pathway2C[k];
  }

  /** Scaling by the positive 2020 emissions keeps a non-increasing series
      non-increasing. */
  lemma ScaledNonIncreasing(m: seq<real>)
    requires forall i :: 0 < i < |m| ==> m[i] <= m[i - 1]
    ensures NonIncreasing(PathwayEmissions(m))
  {
    var e := PathwayEmissions(m);
    forall i, j | 0 <= i <= j < |e|
      ensures e[j] <= e[i]
    {
      StepsCompose(m, i, j);
    }
  }

  lemma {:induction false} StepsCompose(m: seq<real>, i: nat, j: nat)
    requires forall k :: 0 < k < |m| ==> m[k] <= m[k - 1]
    requires i <= j < |m|
    ensures m[j] <= m[i]
    decreases j - i
  {
    if i < j {
      StepsCompose(m, i, j - 1);
    }
  }
}
